# Config revisions, modelled and proved

Lenker's panel makes numbered, hashed and signed config revisions for its nodes;
a node's agent fetches them, checks them, switches files to them, restarts from
those files, and reports what happened. This project models that pipeline and
three state machines beside it, and proves what they keep over all inputs and
all runs.

- **The revision protocol** (`Panel`, `PanelTheorems`, `PanelResults`,
  `Lifecycle`, `Protocol`, `Draining`). Each database transaction of the panel is
  one step. Messages are never removed from the network, so each can be lost,
  delayed or delivered again. The agent may die between any two operations.
- **From subscriptions to an accepted config** (`Text`, `Json`, `ConfigBundle`,
  `Render`, `XrayChecks`, `PanelValidator`, `AgentValidator`, `AgentCheck`,
  `ValidatorTheorems`, `ValidatorDifference`, `DecodingTheorems`,
  `RenderTheorems`, `Acceptance`). A JSON tree tells integers from floats; a trip
  through JSON text turns the former into the latter, with the rounding of IEEE
  754 doubles and the shortest decimal form that reads back. SHA-256 and HMAC
  are arbitrary functions with non-empty results; where a collision would make a
  difference, the theorem names the two texts that would have to collide.
- **The agent's durable state** (`Agent`, `AgentService`, `CrashConsistency`,
  `Restoration`, `KeptNumbers`, `Restarts`, `FailedApply`). The state directory is
  a map of files that are
  replaced atomically, each stamped with the attempt that last wrote it. Every
  operation of an apply may work, fail, or be the process's last.
- **The process supervisor** (`Supervisor`), as interleaved critical sections of
  the caller and the supervise goroutine.
- **Access tokens, handoff invites and exports** (`Subscriptions`,
  `SubscriptionTheorems`).
- **Traffic** (`Traffic`, `TrafficTheorems`, `TrafficStats`), from the lines of
  the statistics command to quota rows.

Where the program changes state there is a class with the same fields, and each
of its methods is proved to move the whole state as a function on values says
(`NodesRepository.ReportConfigRevision` as `Report`, and so on). The theorems
are about those functions and their runs.

Some expected properties fail, and their exact condition is proved instead:

- A signed revision is not always accepted: a limit outside the range that JSON
  text preserves changes the hash (`PanelResults.EveryRowIsAcceptedIff`; input:
  `PanelResults.SignedRowIsRefused`).
- A failed report does not mean that the agent's active revision is unchanged
  (`FailedApply.FailsAtNewRevisionIff`; inputs: `FailedApply.FailedApplyCanSwitch`),
  except for failed validation and dry runs (`FailedApply.RefusedRoundKeepsActive`),
  which is what docs/api.md:520-521 and docs/deploy/runtime-supervisor.md:75-77
  promise.
- `Stop` does not always return (`Supervisor.WaitReturnsIff`; run:
  `Supervisor.FailedStartBlocks`).
- Traffic can be logged and not counted: a call that has written its log fails when
  the counter has no room (`TrafficTheorems.ReportConservesIff`; run:
  `TrafficTheorems.FullCounterLosesTraffic`). When calls complete, nothing is missed
  (`TrafficTheorems.ServiceConserves`).

`dafny verify dfyconfig.toml` checks the whole project.

## Model

| member | source | states |
|---|---|---|
| `Protocol.VerdictsAreFinal` | services/panel-api/internal/storage/nodes.go:852-1015 | over any run of the panel, the network and the agent: revision rows are only added, and each changes at most once, from pending to applied or failed |
| `Protocol.AppliedRowWasActivated` | services/node-agent/internal/agent/service.go:421-501 | a row of the node that stands as applied was made by the panel and switched to, on disk, by some attempt of the agent, although answers and reports are lost, delayed and repeated |
| `Protocol.ActiveWasNamed` | services/panel-api/internal/storage/nodes.go:399-442 | at any moment the agent's active revision and the panel's active_revision are each 0 or the number of a revision whose metadata the agent once made active |
| `Protocol.FreshBeatAgrees` | services/panel-api/internal/storage/nodes.go:404-431 | after a freshly delivered heartbeat of a registered, enabled node the panel's active_revision is the agent's |
| `Protocol.TargetsDescend` | services/panel-api/internal/storage/nodes.go:496-546 | every row's rollback target is 0 or a strictly smaller number, and one the agent made active |
| `Protocol.NetRunKeepsWorld` | services/node-agent/internal/agent/service.go:318-501 | the invariant behind these, over every run: tables, disk, agent and all messages ever sent stay consistent with each other |
| `Draining.RoundHandlesHighest` | services/panel-api/internal/storage/nodes.go:830-850 | one delivered fetch, apply and report gives a verdict to exactly the pending row with the highest number and leaves one fewer pending; the next number to be handled is lower |
| `Draining.RoundsDrainTheQueue` | services/panel-api/internal/storage/nodes.go:830-943 | from p pending rows and a live agent, k <= p delivered rounds of the protocol's own steps leave p - k, nothing is left to fetch exactly when k = p, and the visited numbers start at the highest and strictly descend |
| `Draining.RunsCanDrain` | services/node-agent/internal/agent/service.go:421-501 | from any reachable state with a live agent of a registered, enabled node, the run continued by as many delivered rounds as rows are pending ends with none pending |
| `FailedApply.RefusedRoundKeepsActive` | services/node-agent/internal/agent/service.go:318-343 | a revision that fails validation or its dry run at a live agent is marked failed on the panel and changes no file, no node row and no active revision |
| `FailedApply.FailedApplyKeepsActiveUnless` | services/node-agent/internal/agent/service.go:318-395 | a failed apply leaves the active revision as it was exactly unless the agent accepts the revision, there is a state directory, all twelve operations of the switch work, the dry run passes if one is wanted, and the runtime prepares it; then it is the new one |
| `FailedApply.FailsAtNewRevisionIff` | services/node-agent/internal/agent/service.go:318-395 | from the inputs alone: an apply fails with the agent at a new revision if and only if all that holds and reading or writing the state file fails at the end |
| `FailedApply.FailedApplyCanSwitch` | services/node-agent/internal/agent/service.go:367-392 | this case exists for every accepted revision that the runtime prepares, with or without a dry run that passes: if only the last write fails, the apply fails with the agent at the new revision in memory and on disk |
| `PanelResults.EveryRowIsAcceptedIff` | services/panel-api/internal/storage/nodes.go:538-567 | every revision row of every run, deploy or rollback, fetched at any time, is accepted by its agent if and only if the limits it was rendered with survive JSON text or its own stored and decoded texts are a hash collision; else it is refused as a bad bundle hash |
| `PanelResults.SignedRowIsRefused` | services/panel-api/internal/storage/nodes.go:538-567 | the refusal is real: with a digest that does not collide there, the row that a new node's deploy of a 2^53 + 1 byte limit makes is refused |
| `PanelResults.DeploySucceedsIff` | services/panel-api/internal/storage/nodes.go:486-601 | a permitted deploy fails only for an input that does not render to a valid payload, a taken row id or a number the column cannot hold; else it adds exactly one row |
| `PanelResults.RowsKeepTheirRootsMeaning` | services/panel-api/internal/storage/nodes.go:603-720 | each row goes back through strictly earlier applied rows of its node to one deploy, and agrees with that deploy's decoded payload on every key except the seven overwritten ones |
| `PanelResults.RollbackSucceedsIff` | services/panel-api/internal/storage/nodes.go:603-720 | rolling back to an applied row of a node that may get revisions always renders a valid payload: it fails only for a taken row id or a number the column cannot hold |
| `PanelTheorems.StepKeepsTable` | services/panel-api/internal/storage/nodes.go:486-720 | every operation on the panel keeps the table: numbering, unique ids, each row signed over its own payload, each rollback made from an earlier applied row of its node |
| `PanelTheorems.RunKeepsTable` | services/panel-api/internal/storage/nodes.go:852-1015 | the same over all runs, with verdicts final and rows never removed |
| `PanelTheorems.NumbersRise` | services/panel-api/internal/storage/nodes.go:507-516 | a node's later revision has a strictly larger number |
| `PanelTheorems.NumbersHaveNoGap` | services/panel-api/internal/storage/nodes.go:507-516 | a node's numbers have no gap: together, they are exactly 1..k |
| `Lifecycle.RunKeepsLifecycle` | services/panel-api/internal/storage/nodes.go:257-397 | over all runs: one bootstrap token per node; token used, node registered, auth hash set and registration row present hold together; an auth hash never changes; no node is ever drained |
| `Lifecycle.ReachableLifecycleIsOk` | services/panel-api/internal/storage/nodes.go:257-397 | so these hold in every reachable state |
| `Lifecycle.SecondRegistrationIsRefused` | services/panel-api/internal/storage/nodes.go:307-397 | once a node has registered, no later Register call, with any token, registers it again |
| `Lifecycle.RunFreezesDisabled` | services/panel-api/internal/storage/nodes.go:468-484 | until Enable, nothing about a disabled node changes: status, drain state, active revision, revision rows, and no new ones |
| `Panel.NodesRepository.constructor` | services/panel-api/internal/storage/nodes.go:209-215 | starts from empty tables and fills in the REALITY defaults |
| `Panel.NodesRepository.CreateBootstrapToken` | services/panel-api/internal/storage/nodes.go:257-305 | moves the tables exactly as `CreateBootstrap` does: a pending node and its one active token, or nothing |
| `Panel.NodesRepository.RegisterNode` | services/panel-api/internal/storage/nodes.go:307-397 | moves the tables exactly as `Register` does, on which the lifecycle theorems are proved; an unknown, used or expired token changes nothing |
| `Panel.NodesRepository.RecordHeartbeat` | services/panel-api/internal/storage/nodes.go:399-442 | moves the tables exactly as `Heartbeat` does: status and active revision of an authorised node, nothing else |
| `Panel.NodesRepository.ChangeLifecycle` | services/panel-api/internal/storage/nodes.go:444-484 | moves the tables exactly as `Transition` does, for drain, undrain, disable and enable, with their refusals |
| `Panel.NodesRepository.CreateDummyConfigRevision` | services/panel-api/internal/storage/nodes.go:486-601 | moves the tables exactly as `CreateDeploy` does, the deploy that the table, acceptance and protocol theorems are about |
| `Panel.NodesRepository.CreateRollbackConfigRevision` | services/panel-api/internal/storage/nodes.go:603-720 | moves the tables exactly as `CreateRollback` does, including each refusal of a missing, foreign or unapplied source |
| `Panel.NodesRepository.FindLatestPendingConfigRevision` | services/panel-api/internal/storage/nodes.go:830-850 | returns the pending row with the highest number to an authorised node and not found to anyone else |
| `Panel.NodesRepository.ReportConfigRevision` | services/panel-api/internal/storage/nodes.go:852-1015 | moves the tables exactly as `Report` does: only a pending row of an authorised node gets a verdict, and only applied moves active_revision |
| `Acceptance.AcceptedIffHashMatches` | services/node-agent/internal/agent/service.go:1037-1109 | whatever payload of the deployed shape the panel signs, the agent's verdict depends on one thing: whether the decoded payload hashes to the signed hash |
| `Acceptance.AcceptedIffIntsSurvive` | services/node-agent/internal/agent/service.go:1037-1047 | the agent accepts what the panel signs if and only if every integer in it survives JSON text, or the payload and its decoded form are a hash collision |
| `Acceptance.AcceptedIsWhatWasSigned` | services/node-agent/internal/agent/service.go:282-304 | a revision the agent accepts, if its signature was made over some bundle, has that bundle's node, number and rollback target unless the two signed texts are a collision, and its payload text unless the two payload texts are one |
| `AgentCheck.AcceptedIsVerified` | services/panel-api/internal/configbundle/bundle.go:55-75 | whatever the agent accepts, the panel's own Verify accepts; that both sides sign the same string is a definition here, made after bundle.go:97-99 and service.go:1065-1067 |
| `ConfigBundle.SigningTextInjective` | services/panel-api/internal/configbundle/bundle.go:97-99 | for one-line hashes and any node id the signing string determines node, number, hash and rollback target |
| `ConfigBundle.SignedVerifies` | services/panel-api/internal/configbundle/bundle.go:47-75 | a bundle with the hash of its payload and a signature made by Sign passes Verify |
| `ConfigBundle.VerifiedSignatureBindsFields` | services/panel-api/internal/configbundle/bundle.go:55-86 | a signature verifies only for the fields and the payload text it was made for, unless the two signed texts or the two payload texts are a collision |
| `ConfigBundle.DecodeInvertsEncode` | services/panel-api/internal/configbundle/bundle.go:47-75 | hexadecimal decoding inverts encoding, for any bytes |
| `Json.TextIsStableIff` | services/panel-api/internal/configbundle/bundle.go:88-95 | JSON text is the same after decoding and encoding again if and only if every integer in the tree survives it |
| `Json.RoundTripIsIdempotent` | services/panel-api/internal/configrender/xray.go:355-365 | decoding what was decoded and encoded before changes nothing more |
| `Json.InteroperableIntSurvives` | services/node-agent/internal/agent/service.go:1037-1047 | every integer strictly within 2^53, the range of section 6 of RFC 8259, survives JSON text |
| `Json.RoundedIntIsLost` | services/node-agent/internal/agent/service.go:1037-1047 | 2^53 + 1 does not: the bound is sharp |
| `Json.ShortenedIntIsLost` | services/node-agent/internal/agent/service.go:1037-1047 | an integer can be a double and still be lost: 2^60 is printed back in a shorter form |
| `Json.NumberAsIntIsStable` | services/node-agent/internal/agent/service.go:1121-1135 | reading a number before and after a JSON round trip gives the same integer, for integers within 2^53 |
| `Render.SortIsOrdered` | services/panel-api/internal/configrender/xray.go:367-379 | the sort puts the subscriptions in the order of the three-key comparison by subscription, user and plan |
| `Render.OrderedArrangementIsUnique` | services/panel-api/internal/configrender/xray.go:367-379 | with distinct ids there is only one ordered arrangement, so it does not matter which sorting algorithm is used |
| `Render.SortForgetsInputOrder` | services/panel-api/internal/configrender/xray.go:367-379 | with distinct ids any two orders of the same subscriptions sort to the same sequence |
| `Render.RenderForgetsInputOrder` | services/panel-api/internal/configrender/xray.go:157-332 | so the payload, and with it the hash, is a function of the set of subscriptions |
| `Render.ClientsAreAligned` | services/panel-api/internal/configrender/xray.go:406-459 | the i-th client is the i-th subscription's: its id, its `subscription:` email, the vision flow and level 0, none missing and none added |
| `Render.RenderSubscriptionSummary` | services/panel-api/internal/configrender/xray.go:381-404 | the loop yields one summary per subscription, in order |
| `Render.RenderAccessEntries` | services/panel-api/internal/configrender/xray.go:406-428 | the loop yields one access entry per subscription, in order |
| `Render.RenderClients` | services/panel-api/internal/configrender/xray.go:444-459 | the loop yields one client per access entry that is an object, in order |
| `Render.RenderCustomRoutingRules` | services/panel-api/internal/configrender/xray.go:461-489 | the loop yields exactly the rules of a recognised type, in order |
| `Render.RenderOutbounds` | services/panel-api/internal/configrender/xray.go:177-217 | direct first, block only if some rule needs it, warp only with credentials |
| `Render.RenderVLESSRealityPayload` | services/panel-api/internal/configrender/xray.go:157-332 | the loops together yield `RenderPayload`, on which the rendering theorems are proved |
| `Render.RollbackKeepsMeaning` | services/panel-api/internal/configrender/xray.go:334-353 | a rollback payload agrees with its target on every key except the seven overwritten ones, after the decoding that stands between them |
| `Render.RollbackChainKeepsMeaning` | services/panel-api/internal/configrender/xray.go:334-365 | so does any chain of rollbacks of rollbacks with its root |
| `ValidatorTheorems.RenderedPayloadPassesIff` | services/panel-api/internal/configrender/xray.go:157-332 | the panel accepts a rendered payload if and only if every subscription id is non-blank, dest and private key are non-blank after defaults, and no recognised rule goes to warp without credentials |
| `ValidatorTheorems.RenderedConfigPassesIff` | services/panel-api/internal/configrender/validate.go:55-99 | the same for the config inside the payload |
| `ValidatorTheorems.ValidatorsAgreeUpTo` | services/node-agent/internal/agent/xray_validator.go:26-70 | for every config: the panel accepts it and all rules name their inbound tags, if and only if the agent accepts it and all outbound protocols are among the panel's three |
| `ValidatorDifference.NeitherValidatorImpliesTheOther` | services/panel-api/internal/configrender/validate.go:197-258 | each validator accepts a config that the other one rejects |
| `RenderTheorems.ValidatorsAgreeOnRendered` | services/node-agent/internal/agent/xray_validator.go:171-226 | on every rendered config, before and after the JSON round trip, the two validators give the same verdict |
| `RenderTheorems.RenderedSurvivesIff` | services/panel-api/internal/configrender/xray.go:381-428 | a rendered payload survives JSON text if and only if the device and traffic limits in it do; no other integer can be lost |
| `RenderTheorems.RollbackIsDeployable` | services/panel-api/internal/configrender/xray.go:334-353 | the rollback of a deployable payload is deployable and survives JSON text; the panel's verdict on it is its verdict on the target's decoded config |
| `DecodingTheorems.AgentVerdictIsStable` | services/node-agent/internal/agent/xray_validator.go:26-70 | for configs with integers within 2^53, the agent's verdict, down to the reason, is the same before and after the JSON round trip |
| `Text.BlankMeansTrimmedAway` | services/panel-api/internal/configrender/validate.go:264-270 | a text is blank, here a quantifier over its characters, exactly when trimming leaves nothing of it |
| `XrayChecks.ScanAccepts` | services/panel-api/internal/configrender/validate.go:197-225 | an outbound list is accepted if and only if each outbound is and one is the direct freedom outbound; the tags found are exactly those of the list |
| `XrayChecks.FirstFailureIff` | services/panel-api/internal/configrender/validate.go:227-258 | a loop with early return accepts if and only if every element passes |
| `XrayChecks.ReadStringArray` | services/panel-api/internal/configrender/validate.go:272-286 | yields the texts if the value is an array of texts only, else nothing |
| `XrayChecks.ValidateClients` | services/panel-api/internal/configrender/validate.go:122-130 | the loop over the clients returns the first failure, or none if every client passes |
| `XrayChecks.ValidateInbound` | services/panel-api/internal/configrender/validate.go:101-150 | tag of an inbound that passes every check, else the first reason in the order of the checks |
| `PanelValidator.ValidateOutbounds` | services/panel-api/internal/configrender/validate.go:197-225 | the loop with its tag map and flag decides as the scan that `ScanAccepts` characterises |
| `PanelValidator.ValidateRouting` | services/panel-api/internal/configrender/validate.go:227-258 | the loop decides as the first failure among the rules |
| `PanelValidator.ValidateVLESSRealityConfig` | services/panel-api/internal/configrender/validate.go:55-99 | verdict and reason are those of `CheckConfig`, on which the validator theorems are proved |
| `AgentValidator.ValidateOutbounds` | services/node-agent/internal/agent/xray_validator.go:171-196 | the loop decides as the same scan, without the panel's list of protocols |
| `AgentValidator.ValidateRouting` | services/node-agent/internal/agent/xray_validator.go:198-226 | the loop decides as the first failure among the rules, inbound tags being required |
| `AgentValidator.ValidateXrayConfigArtifact` | services/node-agent/internal/agent/xray_validator.go:26-70 | verdict and reason are those of `CheckConfig`, on which the validator theorems are proved |
| `CrashConsistency.FilesStayInOrder` | services/node-agent/internal/agent/service.go:632-732 | after any run of applies, failed operations, crashes between any two of them and restarts, by the attempt that last wrote each file: staged config >= staged metadata >= active metadata >= active config >= state.json |
| `CrashConsistency.StateNamesAnActivatedRevision` | services/node-agent/internal/agent/service.go:696-788 | so state.json names the revision of an attempt that did switch the active config, never one newer than the active config on disk; both hold what their attempts wrote |
| `CrashConsistency.RestartIsNamed` | services/node-agent/internal/agent/service.go:790-864 | after a restart on any such disk, with any files unreadable, the active revision is 0 or one whose metadata was made active |
| `CrashConsistency.ApplyKeepsDisk` | services/node-agent/internal/agent/service.go:318-395 | one apply, wherever it fails or dies, keeps the files in order and only adds writes; if it succeeds, all five files are its own and the agent is at its revision |
| `CrashConsistency.RunKeepsLife` | services/node-agent/internal/agent/service.go:318-501 | the same over every run of polls and restarts |
| `Restarts.PanelRestartAfterSuccess` | services/node-agent/internal/agent/service.go:737-913 | in every run of panel, network and agent: when a revision the panel answered with is applied, a new service on the state directory has every persisted status field as it was, the modes of its identity, and exactly one restore event more |
| `Restarts.RestartAfterSuccess` | services/node-agent/internal/agent/service.go:83-124 | the same over every run of an agent that polls revisions whose number and rollback target are float64 integers |
| `Restarts.SuccessfulApplyIsRestored` | services/node-agent/internal/agent/service.go:790-821 | the same from any state directory and status the invariants allow |
| `KeptNumbers.RunKeepsNumbers` | services/node-agent/internal/agent/service.go:866-913 | over every such run each number of the status, restored or not, is one that JSON text gives back |
| `Restoration.RestoreInvertsPersist` | services/node-agent/internal/agent/service.go:866-913 | every status field is read back from the state file's text as it was persisted, whatever other members the file has |
| `Restoration.EventsSurvive` | services/node-agent/internal/agent/service.go:969-999 | the event trail is read back as it was, although empty fields are omitted from its text |
| `Restoration.TrailIsTheLastEvents` | services/node-agent/internal/agent/service.go:261-280 | over every run the trail is the last min(20, n) events of the full history |
| `AgentService.StateDirectory.constructor` | services/node-agent/internal/agent/service.go:1001-1022 | an empty state directory |
| `AgentService.StateDirectory.WriteFileAtomic` | services/node-agent/internal/agent/service.go:1001-1022 | the file has its new content or, on failure or death, the directory is as it was |
| `AgentService.StateDirectory.ReadJsonFile` | services/node-agent/internal/agent/service.go:671-694 | a staged file that is missing, unreadable or not JSON stops the activation |
| `AgentService.RuntimeEventsFromState` | services/node-agent/internal/agent/service.go:969-999 | the loop yields the last twenty well-formed events of the stored trail |
| `AgentService.Service.constructor` | services/node-agent/internal/agent/service.go:83-124 | the service before it restores anything |
| `AgentService.Service.AppendRuntimeEvent` | services/node-agent/internal/agent/service.go:261-280 | the completed event is added and the trail cut to its last twenty, as `AppendEvent` specifies |
| `AgentService.Service.ValidateAndStoreConfigRevision` | services/node-agent/internal/agent/service.go:282-304 | a revision is stored if and only if `CheckRevision` accepts it; a refusal changes nothing |
| `AgentService.Service.StageConfigRevision` | services/node-agent/internal/agent/service.go:576-658 | memory, disk and outcome are those of `Stage`, at every possible point of failure or death |
| `AgentService.Service.ActivateStagedConfigRevision` | services/node-agent/internal/agent/service.go:660-735 | memory, disk and outcome are those of `Activate`: metadata, config and state switched in this order, up to the point of failure |
| `AgentService.Service.PersistRuntimeState` | services/node-agent/internal/agent/service.go:737-788 | memory, disk and outcome are those of `Persist`: the status is merged into the state file's other members |
| `AgentService.Service.ApplyConfigRevision` | services/node-agent/internal/agent/service.go:318-395 | memory, disk and outcome are those of `Apply`, on which the crash and restore theorems are proved |
| `AgentService.Service.PollPendingConfigRevision` | services/node-agent/internal/agent/service.go:421-501 | memory, disk, outcome and the one report sent are those of `Poll`, the agent's step of the protocol |
| `AgentService.Service.RestoreRuntimeState` | services/node-agent/internal/agent/service.go:790-821 | memory is that of `Restore`: the state file, else the active metadata, else degraded |
| `AgentService.Service.RestoreFromActiveMetadata` | services/node-agent/internal/agent/service.go:823-864 | memory is that of `FromMetadata`, the fallback |
| `AgentService.Service.MarkRestoreDegraded` | services/node-agent/internal/agent/service.go:915-925 | a degraded status that keeps the active revision and records the reason once |
| `AgentService.Service.RestoreAll` | services/node-agent/internal/agent/service.go:83-124 | restores and then takes both modes from the identity |
| `AgentService.Open` | services/node-agent/internal/agent/service.go:83-124 | a new service on a state directory is `NewService` of its files, of which restarts are made |
| `Supervisor.AtMostOneChild` | services/node-agent/internal/agent/xray_supervisor.go:114-229 | over every interleaving of calls that do not overlap, the supervise goroutine and exits of the child: at most one child is alive, it is the one on record, and pid is non-zero exactly while the state is running |
| `Supervisor.TracesAreInGrammar` | services/node-agent/internal/agent/xray_supervisor.go:136-229 | each generation's events are a prefix of Started (Crashed Started Restarted)* (Stopped, Crashed Stopped or Crashed), complete once it is over, and the k-th backoff is min(2^k, 30) seconds |
| `Supervisor.StopDrivesWorker` | services/node-agent/internal/agent/xray_supervisor.go:80-91 | after a stop request the supervise goroutine always has a move, every move brings it nearer its end, and the end closes done |
| `Supervisor.StuckForever` | services/node-agent/internal/agent/xray_supervisor.go:58-68 | after a failed first start nothing ever closes done: whoever waits for it waits forever |
| `Supervisor.WaitReturnsIff` | services/node-agent/internal/agent/xray_supervisor.go:80-91 | a call that waits can return if and only if the first start of its generation succeeded |
| `Supervisor.FailedStartBlocks` | services/node-agent/internal/agent/xray_supervisor.go:58-91 | the shortest such runs: after one failed first start neither Stop nor another PrepareStart can return |
| `Supervisor.XraySupervisor.constructor` | services/node-agent/internal/agent/xray_supervisor.go:34-39 | a supervisor without channels, process or events |
| `Supervisor.XraySupervisor.PrepareStart` | services/node-agent/internal/agent/xray_supervisor.go:43-61 | closes a running generation's stop channel and waits, or makes the channels of a new generation; the step of the interleaving model |
| `Supervisor.XraySupervisor.Stop` | services/node-agent/internal/agent/xray_supervisor.go:80-91 | closes the stop channel at most once and waits exactly when there is a generation |
| `Supervisor.XraySupervisor.AfterDone` | services/node-agent/internal/agent/xray_supervisor.go:50-61 | how PrepareStart and Stop go on once done is closed |
| `Supervisor.XraySupervisor.StartProcess` | services/node-agent/internal/agent/xray_supervisor.go:114-134 | the new child is on record and running with one Started event, or the state is failed with no pid |
| `Supervisor.XraySupervisor.FirstStart` | services/node-agent/internal/agent/xray_supervisor.go:63-72 | a generation's first start: with a child the goroutine is spawned next, without one the call ends and no goroutine will ever close done |
| `Supervisor.XraySupervisor.StartAgain` | services/node-agent/internal/agent/xray_supervisor.go:209-214 | the start after a backoff: announced next, or the goroutine ends |
| `Supervisor.XraySupervisor.CloseDone` | services/node-agent/internal/agent/xray_supervisor.go:136-142 | the goroutine's last act closes done |
| `Supervisor.XraySupervisor.RecordCrashed` | services/node-agent/internal/agent/xray_supervisor.go:185-197 | the critical section of a crash: restarting, no pid, one Crashed event before the backoff |
| `Supervisor.XraySupervisor.RecordRestarted` | services/node-agent/internal/agent/xray_supervisor.go:215-228 | one Restarted event, and the backoff doubled up to its maximum |
| `Supervisor.XraySupervisor.RecordStopped` | services/node-agent/internal/agent/xray_supervisor.go:158-168 | stopped, no pid, one Stopped event as the goroutine's last |
| `SubscriptionTheorems.RunKeepsStore` | services/panel-api/internal/storage/subscriptions.go:544-831 | over every run, changes of users and plans included: each subscription has at most one active access token and one active invite, hashes are unique, every expiry stays within its subscription's, expiries never decrease, and an ended token or invite never becomes active again |
| `SubscriptionTheorems.TokenFindsIff` | services/panel-api/internal/storage/subscriptions.go:999-1020 | a token finds a subscription if and only if it is the subscription's current token and has not expired |
| `SubscriptionTheorems.TokensAreCells` | services/panel-api/internal/storage/subscriptions.go:515-588 | the token table behaves as one cell per subscription: issuing and claiming set it, revoking empties it, and no other subscription's cell is touched |
| `SubscriptionTheorems.InviteIsClaimedOnce` | services/panel-api/internal/storage/subscriptions.go:755-831 | after a successful claim, whatever happens in between, claiming the same invite again is refused |
| `SubscriptionTheorems.ExportAgreesWithConfig` | services/panel-api/internal/storage/subscriptions.go:287-447 | if an export picks a node, a deploy for that node from the same database state is permitted, and the config its agent fetches of the row it adds has an inbound with the exported port, SNI, short id, network and security and a client with the exported id, email, flow and level |
| `SubscriptionTheorems.AccessSucceedsIff` | services/panel-api/internal/storage/subscriptions.go:312-365 | an export succeeds if and only if the subscription, its user and plan are there and active and some node meets the conditions of the node query |
| `Subscriptions.SubscriptionsRepository.constructor` | services/panel-api/internal/storage/subscriptions.go:187-193 | a repository without subscriptions, tokens or invites |
| `Subscriptions.SubscriptionsRepository.CheckEligible` | services/panel-api/internal/storage/subscriptions.go:837-864 | the first reason why a subscription may not have a token, or none |
| `Subscriptions.SubscriptionsRepository.ReplaceAccessToken` | services/panel-api/internal/storage/subscriptions.go:515-571 | revokes the current token and adds one that expires with the subscription, or changes nothing; exactly `IssueToken` |
| `Subscriptions.SubscriptionsRepository.RevokeAccessToken` | services/panel-api/internal/storage/subscriptions.go:573-588 | revokes exactly the subscription's active token |
| `Subscriptions.SubscriptionsRepository.SubscriptionIDByToken` | services/panel-api/internal/storage/subscriptions.go:999-1020 | the lookup that `TokenFindsIff` characterises |
| `Subscriptions.SubscriptionsRepository.CreateHandoffInvite` | services/panel-api/internal/storage/subscriptions.go:615-663 | replaces the active invite by one that expires after a day or with the subscription, whichever is earlier; exactly `CreateInvite` |
| `Subscriptions.SubscriptionsRepository.RevokeHandoffInvite` | services/panel-api/internal/storage/subscriptions.go:738-753 | revokes exactly the subscription's active invite |
| `Subscriptions.SubscriptionsRepository.ExportAccess` | services/panel-api/internal/storage/subscriptions.go:287-447 | exactly `Access`: missing rows, an ineligible subscription and no node are told apart as in the program |
| `Subscriptions.SubscriptionsRepository.ClaimHandoffInvite` | services/panel-api/internal/storage/subscriptions.go:755-831 | if the export succeeds, marks the invite claimed and replaces the access token in one step, else changes nothing; exactly `ClaimInvite` |
| `Subscriptions.SubscriptionsRepository.RenewSubscription` | services/panel-api/internal/storage/subscriptions.go:968-997 | extends from the later of now and the expiry; exactly `Renew` |
| `Subscriptions.SubscriptionsRepository.ListConfigSubscriptionInputs` | services/panel-api/internal/storage/nodes.go:722-782 | yields exactly the inputs of the subscriptions a node of the region serves |
| `TrafficTheorems.ServiceConserves` | services/panel-api/internal/traffic/repository.go:88-198 | over every run of agents' reports, records, settings and resets in which each call completes, whatever the amounts: a quota row's bytes equal its subscription's counter, and the counter equals the value at the last set or reset plus what was logged since |
| `TrafficTheorems.RunConserves` | services/panel-api/internal/traffic/repository.go:115-198 | the same from any balanced tables and without that each call completes, if what each operation records fits its counter |
| `TrafficTheorems.StepConservesIff` | services/panel-api/internal/traffic/repository.go:115-198 | every single operation keeps that balance if and only if, by the tables before it, what it records fits |
| `TrafficTheorems.ReportConservesIff` | services/panel-api/internal/traffic/service.go:50-95 | by the tables before it: a report keeps the balance if and only if it is not admitted or, as far as its items are all logged, each counter has room for its subscription's items so far; it completes if and only if it is admitted and all its items are logged and have room; one that is not admitted changes nothing |
| `TrafficTheorems.RecordConservesIff` | services/panel-api/internal/traffic/service.go:27-48 | recording traffic that is logged keeps that balance, and completes, if and only if the counter with it still fits a 64-bit integer |
| `TrafficTheorems.FullCounterLosesTraffic` | services/panel-api/internal/traffic/repository.go:152-176 | a counter that was set to the largest value, as two calls can do, is one where it fails: one more byte is logged and not counted, and the call fails |
| `TrafficTheorems.SuccessfulReportLogsAll` | services/panel-api/internal/traffic/service.go:50-95 | a report that succeeds logged every item, in order, and says how many |
| `TrafficTheorems.RecordedAtMostCollected` | services/node-agent/internal/app/app.go:178-193 | over any run of the reporting loop, with reports lost or failing part-way, recorded bytes never exceed collected bytes |
| `TrafficTheorems.RecordedIsCollected` | services/node-agent/internal/app/app.go:178-193 | and they are equal when every report arrives and succeeds |
| `Traffic.WithDerivedFields` | services/panel-api/internal/traffic/model.go:72-85 | for a positive limit exceeded holds exactly when nothing remains; within the limit, used and remaining add up to it; without a limit nothing is exceeded |
| `Traffic.TrafficService.constructor` | services/panel-api/internal/traffic/service.go:16-25 | empty tables with the given nodes and devices |
| `Traffic.TrafficService.InsertLog` | services/panel-api/internal/traffic/repository.go:88-96 | adds one log if its references exist and its values are valid, else nothing |
| `Traffic.TrafficService.AddToQuota` | services/panel-api/internal/traffic/repository.go:152-176 | adds to the quota row, which is made from the counter if missing, and mirrors it; refused if the proposed row or the new one violates the table's checks; exactly `IncrementQuota` |
| `Traffic.TrafficService.ResetCounter` | services/panel-api/internal/traffic/repository.go:178-198 | sets quota row and counter to 0 and restarts the balance; exactly `ResetQuota` |
| `Traffic.TrafficService.Record` | services/panel-api/internal/traffic/service.go:27-48 | log first, then quota: exactly `RecordTraffic`, with the log kept if the quota fails |
| `Traffic.TrafficService.CleanItems` | services/panel-api/internal/traffic/service.go:61-78 | refuses a report exactly if some item is invalid, else trims each item and adds up both directions |
| `Traffic.TrafficService.RecordItems` | services/panel-api/internal/traffic/service.go:79-84 | records item by item and stops at the first failure |
| `Traffic.TrafficService.RecordReported` | services/panel-api/internal/traffic/service.go:50-95 | exactly `RecordReport`, on which conservation is proved |
| `TrafficStats.ParseXrayStats` | services/node-agent/internal/traffic/xray_collector.go:35-90 | one record per subscription and device, with the 64-bit sums over all recognised lines, and exactly the records that are not all zero |
| `TrafficStats.RecordsAreSums` | services/node-agent/internal/traffic/xray_collector.go:35-90 | for counters that are not negative and sums that fit, there is a record exactly for each key with a positive sum, and it holds the sums |
| `TrafficStats.RecordsForgetOrder` | services/node-agent/internal/traffic/xray_collector.go:35-90 | permuted lines give the same set of records |
| `TrafficStats.PrintedLineIsRecorded` | services/node-agent/internal/traffic/xray_collector.go:35-131 | a printed `user>>>SUB@DEV>>>traffic>>>uplink` or downlink counter, quoted or plain, becomes the record of SUB and DEV with its value in that direction |
| `TrafficStats.QuotedIsReadBack` | services/node-agent/internal/traffic/xray_collector.go:100-121 | a line in the quoted format is read back as its name and value, for any name without quotes and without `value:` |
| `TrafficStats.PlainIsReadBack` | services/node-agent/internal/traffic/xray_collector.go:122-131 | so is a line in the plain format, for names that neither start nor end with white space |

## Left out

- The runtime fields that heartbeats and reports mirror into the node row (modes, states, event trail, validation outcome) and their normalisation.
- HTTP handlers, routing, CORS, logging, environment config, and the clients of the panel's API: only "sent", "delivered" and "lost" remain of them.
- The SQL engine, and the insides of SHA-256, HMAC, bcrypt, curve25519, os/exec and encoding/json beyond the number and tree rules above; random tokens and ids are parameters.
- Wall-clock formatting: times are integers and each call reads its clock once, so the parts of `SubscriptionInput` that are RFC 3339 text are decimal text here.
- Only the node's own agent sends that node's heartbeats and reports in `Protocol`; requests with its token from anywhere else are not modelled.
- Goroutines that share one agent `Service` without a lock, and overlapping `PrepareStart` and `Stop` calls: they are serialised.
- The supervisor's own list of events is modelled without its limit of twenty entries; the second `Wait` in its graceful stop, the five-second timeout and SIGKILL are one step in which the child ends.
- File permissions, fsync, and the temporary files behind atomic replacement and the dry run; a crash between creating and renaming one leaves it behind.
- A state directory path that is not in clean form, and state files that are valid JSON but not an object.
- Activation and persistence are modelled as apply calls them, not with an artifact put together elsewhere.
- The index suffix in a validator's reason for a bad client, and other error texts that no check depends on.
- Numbers outside the range of int64 in `numberAsInt`, where Go leaves the conversion to the processor; INT columns other than revision numbers, and NUL characters in JSONB.
- Endpoint names and the URI text of an export.
- Status queries for tokens and invites, listings, the device limit check, and plain create, read, update and delete of users, plans, profiles, templates, settings, accounts and audit entries: easy members only.
- Usage queries and `UpdateQuota` of the traffic repository; a process that dies between the two statements of one repository call.
- Attribution of traffic end to end: rendered emails start with `subscription:`, which the collector's parser keeps as part of the subscription id.
- TrafficTheorems.ServiceConserves: a call that fails after its log was written is left out of these runs, because it loses traffic exactly as `TrafficTheorems.StepConservesIff` says; so does a process that dies there.
- Subscriptions.SubscriptionsRepository.ExportAccess: does not model which of the offered nodes comes first (by region, name and id), because text order depends on the collation of the database; the node query is any function that picks a node meeting its conditions.
- Restarts.RestartAfterSuccess: revisions whose number or rollback target is not a float64 integer are left out, because JSON text does not give those back; the panel issues none (`Restarts.AnswersAreKept`). The process runner's texts are taken to have no surrounding white space, as those of the runners in the repository have none.
