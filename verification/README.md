# homeCore in Dafny

A model of the parts of homeCore whose correctness spans many steps, and proofs about it.
`dafny verify dfyconfig.toml` checks everything.

Seven parts, each with its own modules:

- **Criteria-driven modes.** `Conditions`, `Graphs` and `ManagedModes` model condition
  trees, the references collected from them, the generated rules and the cycle check.
  `ModeTargets` shows that criteria read in no cycle have a settled state, with inverse off
  conditions exactly one, and `ModeReadGraph` that this is the exact condition.
  `ModeCascade` runs the rules on an engine that handles one event at a time and
  atomically; `ModeBus` runs them on the engine as it is, where conditions are judged on a
  cache that lags behind the mode store, and `ModeRounds` shows that the runs it is about
  exist. `ModeBusStall` and `ModeEventsDecide` say how far the engine gets on its events
  alone.
- **Sessions and credentials.** `Auth` gives every request as a step on the stored
  records; `AuthKeys` and `AuthSessions` prove what every run keeps; `AuthService` is the
  handlers and store sweeps that update records in place, each proved to do its step.
- **Runtime enrollment.** `Enrollment`: enroll, poll, approve and deny, interleaved with
  time, over the record store.
- **The runtime host.** `Traces` and `Host` model the install and the reconcile pass as
  every state they go through, so that being killed anywhere is covered; `Supervisor` is
  the restart loop and its back-off; `Render` is the placeholder substitution.
- **The rate limiter.** `RateLimit` holds the pruned map against a log that is never pruned.
- **Version ordering.** `Versions`.
- **Documents.** `ConfigDocument` (the tree and what is written of it) and `ConfigWriter`
  (section patches and lists of tables), `Vocabulary` (the automation rewrite) and `Backup`
  (archive and restore).

`Basics` and `Options` hold the small functions and the two result types the others share.

## Where the code and what is said of it differ

- Rotating an API key clears its revocation (`crates/hc-state/src/api_key_store.rs:187-215`),
  so a revoked key can come back with scopes its owner no longer has. `StepKeepsKeysWithin`
  gives the exact condition and `RotationCanReviveBeyondOwner` an instance.
- A mode change is published before the device state it goes with
  (`crates/hc-core/src/mode_manager.rs:504-607`), and conditions read the device cache, so
  a chain of criteria is not carried through by mode changes alone (`CascadeAloneStalls`);
  events suffice exactly where no criterion reads a managed mode (`EventsSettleIff`), and
  the periodic re-evaluation carries the rest through (`BusSettles`).
- A device condition that names a mode is not collected as a mode reference, so the cycle
  check does not see it (`DeviceLeafEscapesCycleCheck`). What has to be free of cycles is the
  graph of everything read, such leaves included (`ReadGraphDecides`), and the convergence
  results are stated on that graph.
- The note that a session ended is dropped after exactly one token lifetime, while a token
  is accepted up to and including its expiry and a leeway after it. `ShutStays` gives the
  exact condition and `NoteCanBeForgottenTooSoon` an instance.
- `compare_versions` is no order where text and numbers meet at one position
  (`CircleAroundEveryVersion`), so on such lists `latest` depends on the order of the index
  and a newer core can be refused (`PickCanDependOnOrder`, `NewerCoreCanRefuse`).
- A section patch with a field above another one that is given a value does not come out as
  given: a null field can be a table afterwards (`RemovedFieldCanComeBack`).
  `PatchReadsBackIff` gives the exact condition.
- The keypad part of the automation rewrite can drop a value when the light and the command
  have a field of the same name (`LedLosesNothingIff`).
- An explicit off condition may hold together with the on condition, and the mode is then
  wrong either way (`BothHoldIsAccepted`); `SettlesAloneIff` gives the exact condition.
- Placeholders inside braces, which the template does not forbid, are filled or refused by
  the order of a hash map (`NestedDependsOnOrder`); `AlwaysSubstitutesIff` gives the exact
  condition.

## Model

| member | source | states |
|---|---|---|
| `Conditions.ConditionRefs.Collect` | crates/hc-api/src/managed_modes.rs:30-59 | Walking a condition tree adds exactly the devices, modes and hub variables it reads to the sets already held |
| `Conditions.HoldsDependsOnRefs` | crates/hc-api/src/managed_modes.rs:30-59 | Two states that agree on everything collected from a tree (time, scripts and the like held equal) give the tree the same truth, for any nesting of Not, And, Or and Xor |
| `Graphs.CycleSearch.Run` | crates/hc-api/src/managed_modes.rs:224-272 | The three-colour search, its marks shared across all roots, accepts a graph exactly when it has no directed cycle, self-loops included |
| `Graphs.CycleSearch.Visit` | crates/hc-api/src/managed_modes.rs:245-270 | One visit either finishes everything reachable from the node, in an order where dependencies finish first, or exhibits a cycle |
| `Graphs.AcyclicHasOrder` | crates/hc-api/src/managed_modes.rs:224-272 | A graph with no cycle can be put in dependency order, the rank the convergence proofs go by |
| `Graphs.OrderedIsAcyclic` | crates/hc-api/src/managed_modes.rs:224-272 | The converse: a dependency order leaves no cycle |
| `ManagedModes.BuildManagedRules` | crates/hc-api/src/managed_modes.rs:274-301 | Generates, for each trigger, one on-rule and one off-rule with the guard on the mode's present state, each exactly once; fails exactly when an explicit off condition is missing |
| `ManagedModes.ChangesStartRules` | crates/hc-api/src/managed_modes.rs:30-68 | If two states differ in one device, mode or hub variable and the on or off condition differs between them, that entity was collected and its change starts both an on-rule and an off-rule |
| `ManagedModes.EnsureAcyclic` | crates/hc-api/src/managed_modes.rs:224-272 | Accepts a list of definitions exactly when the graph of managed modes and the managed modes they reference has no cycle |
| `ManagedModes.ValidateDefinition` | crates/hc-api/src/managed_modes.rs:179-222 | Accepts exactly the candidates that pass every check, the acyclicity of the replaced-or-appended list being one |
| `ManagedModes.UpdatesKeepSound` | crates/hc-api/src/handlers.rs:2264-2412 | Over any run of accepted and refused puts and deletes, the saved definitions have distinct modes and no cycle |
| `ManagedModes.NothingSavedIsSound` | crates/hc-api/src/handlers.rs:2264-2412 | The empty list such a run starts from is sound |
| `ModeTargets.SettledStateIsUnique` | crates/hc-api/src/managed_modes.rs:179-272 | In given surroundings (and given histories of the managed modes a criterion asks the history of) at most one setting of inverse-off managed modes meets every criterion, modes read as devices included |
| `ModeTargets.SettledStateExists` | crates/hc-api/src/managed_modes.rs:179-272 | And one setting does, for every accepted list that reads managed modes, by mode or by device leaf, in no cycle; explicit off conditions included as long as they exclude the on condition, and criteria on when or by whom a mode was changed |
| `ModeTargets.CanBeRightIff` | crates/hc-api/src/managed_modes.rs:70-81 | A mode can be set right exactly when its on and its off condition do not both hold |
| `ModeTargets.SettlesAloneIff` | crates/hc-api/src/managed_modes.rs:70-81 | A definition that does not read its own mode can be settled in all surroundings exactly when its two conditions exclude each other |
| `ModeTargets.BothHoldIsAccepted` | crates/hc-api/src/managed_modes.rs:179-222 | A concrete definition that is accepted and whose mode is wrong either way wherever its condition holds |
| `ModeTargets.DeviceLeafEscapesCycleCheck` | crates/hc-api/src/managed_modes.rs:30-41 | A concrete accepted pair with a device leaf naming a mode, for which no setting of the modes meets both criteria |
| `ModeReadGraph.ReadGraphDecides` | crates/hc-api/src/managed_modes.rs:30-68 | Every accepted inverse-off list with the same references can be settled in all surroundings exactly when the graph of everything read, device leaves naming managed modes included, has no cycle |
| `ModeReadGraph.CyclicReadsCarryNoSettledState` | crates/hc-api/src/managed_modes.rs:224-272 | From any accepted list whose reads form a cycle, an accepted list with the very same references that no setting of the modes satisfies |
| `ModeCascade.CascadeSettles` | crates/hc-api/src/managed_modes.rs:127-177 | With events handled one at a time and atomically, in any order, after start-up: the number of events is bounded beforehand, every wrong mode always has an event waiting that starts its rules, and once nothing waits no mode is wrong; device leaves naming modes and exclusive explicit off conditions included |
| `ModeCascade.CascadeIsDeterminate` | crates/hc-api/src/managed_modes.rs:274-301 | Any two orders of handling the events of inverse-off definitions end with the same modes on, if they leave the same histories of the managed modes a criterion asks the history of |
| `ModeCascade.ProcessKeepsCovered` | crates/hc-api/src/managed_modes.rs:274-301 | Handling any waiting event keeps every wrong mode covered by a waiting event |
| `ModeCascade.StepSpends` | crates/hc-api/src/managed_modes.rs:274-301 | Each handled event uses up part of a budget: wrong modes weighted by dependency rank, plus the events waiting |
| `ModeBus.BusSettles` | crates/hc-core/src/engine.rs:789-1130 | With the engine as it is (conditions judged on a cache that lags the store, commands and reports under way, periodic ticks), five rounds per managed mode bring store and cache to one setting that meets every criterion, and they keep it, from any consistent start and for any interleaving; exclusive explicit off conditions included |
| `ModeBus.BusSettlesAtGoal` | crates/hc-core/src/engine.rs:789-1130 | With inverse off conditions that setting is known beforehand: it is the only one that meets every criterion |
| `ModeBus.NextSettles` | crates/hc-core/src/engine.rs:789-1130 | Five rounds settle the next mode in dependency order, whether its conditions ask for on, for off, or for neither, in which case it stays as it is stored once nothing under way speaks of it |
| `ModeBus.FiveRounds` | crates/hc-core/src/engine.rs:789-1130 | A mode whose conditions ask for a setting has it, stored and cached, after five rounds while the earlier ones stay settled |
| `ModeBus.GoalSteers` | crates/hc-core/src/engine.rs:789-1130 | A goal that has the first modes right steers them: judged on any cache in which the modes read are as the goal has them, every rule commands what the goal has |
| `ModeBus.GoalPushes` | crates/hc-core/src/engine.rs:789-1130 | And a mode the cache has wrong, and whose conditions ask for the goal, is corrected by its periodic rule |
| `ModeRounds.RoundExists` | crates/hc-core/src/engine.rs:365-412 | From every engine, with whatever under way, there is a run in which all of it arrives and every periodic rule is tried |
| `ModeRounds.SettlingRunExists` | crates/hc-core/src/engine.rs:365-412 | So every consistent engine has a run that ends with its modes at a setting that meets every criterion |
| `ModeBus.StepConsistent` | crates/hc-core/src/engine.rs:466-492 | Every step keeps: once the bus is empty the cache will say of each mode what is stored |
| `ModeBusStall.CascadeAloneStalls` | crates/hc-core/src/mode_manager.rs:504-607 | Because a mode change is announced before the device state the cache is filled from, a two-mode chain left to its own events never turns the second mode on, in any order and for ever; the periodic rule is what corrects it |
| `ModeBusStall.PairIsWellBehaved` | crates/hc-api/src/managed_modes.rs:179-272 | The pair that stalls is accepted and read in no cycle, so its settled state exists and is unique |
| `ModeBusStall.EventsSettleIndependentModes` | crates/hc-core/src/engine.rs:466-492 | Where no criterion reads a managed mode, the engine left to its own events from start-up does settle: once idle, store and cache meet every criterion |
| `ModeEventsDecide.EventsSettleIff` | crates/hc-core/src/engine.rs:466-492 | And this is the exact condition: left to its own events from start-up the engine settles every inverse-off list with the same references exactly when none of them names a managed mode, by mode or by device leaf |
| `ModeEventsDecide.ReadModesCanStall` | crates/hc-core/src/mode_manager.rs:504-607 | Wherever a managed mode is read, a list with the very same references and a run in which the engine comes to rest with a mode stored wrong |
| `ModeBusStall.EventsRunOut` | crates/hc-core/src/engine.rs:789-1130 | And it becomes idle: such a run has no more steps than were outstanding at its start |
| `AuthKeys.StepKeepsTokensCurrent` | crates/hc-api/src/auth_middleware.rs:347-395 | Every step keeps: an access token at its person's present version carries their present role |
| `AuthKeys.AcceptedTokenHasPresentRole` | crates/hc-api/src/auth_middleware.rs:347-395 | A token that is let through carries the role its holder has now |
| `AuthKeys.OutdatedStays` | crates/hc-api/src/auth_middleware.rs:347-395 | A token left behind by a version bump is refused after every later step |
| `AuthKeys.SigningOutOutdates` | crates/hc-api/src/auth_handlers.rs:340-389 | Signing out everywhere, a new password, one set by an admin, a new role and removal each leave every access token the person had refused and outdated, and no refresh token of theirs usable |
| `AuthKeys.RunKeepsAdmin` | crates/hc-api/src/auth_handlers.rs:61-71 | Over every run the house keeps an admin |
| `AuthKeys.StepKeepsKeysWithin` | crates/hc-api/src/auth_handlers.rs:80-108 | A step keeps every unrevoked non-display key within its owner's role exactly when it does not rotate a revoked key that is beyond it |
| `AuthKeys.RunKeepsKeysWithin` | crates/hc-api/src/api_key_handlers.rs:92-396 | Over every run without such a rotation each such key's scopes are a subset of its existing owner's present role |
| `AuthKeys.AcceptedKeyIsWithinOwner` | crates/hc-api/src/auth_middleware.rs:219-325 | A key that is let through acts within its owner's present role |
| `AuthKeys.NewKeyIsWithin` | crates/hc-api/src/api_key_handlers.rs:141-160 | A new key, its own caller's or another person's, is within its owner's role |
| `AuthKeys.RotationCanReviveBeyondOwner` | crates/hc-api/src/api_key_handlers.rs:403-483 | A run from a new house in which a person makes a key, revokes it, has their role narrowed, signs in again and rotates the key, which is then unrevoked with a scope they no longer have |
| `AuthSessions.StepKeepsChained` | crates/hc-api/src/auth_handlers.rs:393-440 | Every step keeps the refresh tokens of each session one linear parent chain in which only the last can be unused |
| `AuthSessions.RunIsChained` | crates/hc-api/src/auth_handlers.rs:393-440 | So they are in every run from a new house |
| `AuthSessions.UnusedIsLast` | crates/hc-api/src/auth_handlers.rs:533-572 | An unused token of a session is the last of its chain |
| `AuthSessions.ReuseCloses` | crates/hc-api/src/auth_handlers.rs:495-510 | Presenting any already used token leaves its session with no usable refresh token |
| `AuthSessions.ClosedForGood` | crates/hc-api/src/auth_handlers.rs:448-604 | A closed session stays closed over every run, and no access token naming it is minted again |
| `AuthSessions.LogoutCloses` | crates/hc-api/src/auth_handlers.rs:296-319 | Signing out with a live token closes its session |
| `AuthSessions.EndSessionCloses` | crates/hc-api/src/auth_handlers.rs:255-290 | Ending a session by a token's id closes it exactly when that token is unused or the session was closed already |
| `AuthSessions.EndListedSessionCloses` | crates/hc-api/src/auth_handlers.rs:217-290 | Ending a session the list shows closes it |
| `AuthSessions.EndingShuts` | crates/hc-api/src/lib.rs:946-954 | A step that ends and closes a session shuts out all its access tokens |
| `AuthSessions.ShutKeepsOut` | crates/hc-api/src/auth_middleware.rs:366-368 | While a session is shut no access token naming it is accepted |
| `AuthSessions.ShutStays` | crates/hc-api/src/lib.rs:946-962 | A step keeps a session shut exactly when it does not drop the session's note while one of its tokens is still within expiry and leeway |
| `AuthSessions.ShutForGood` | crates/hc-api/src/lib.rs:946-962 | Over every run that notes no end at such a moment, a shut session's access tokens are never accepted again although notes are dropped |
| `AuthSessions.EndedSessionStaysOut` | crates/hc-api/src/lib.rs:946-962 | In every run from a new house, once a step has ended and closed a session none of its access tokens is ever accepted again, as long as no end is noted while a note is within the leeway of one lifetime old |
| `AuthSessions.NoteCanBeForgottenTooSoon` | crates/hc-api/src/lib.rs:946-954 | A run from a new house, for any leeway including none, in which a note is dropped while its token is at its last second and the token is accepted |
| `AuthSessions.NewHouseIsSound` | crates/hc-api/src/auth_handlers.rs:114-210 | A new house with one admin satisfies everything the runs start from |
| `AuthService.Server.RevokeChain` | crates/hc-state/src/refresh_token_store.rs:182-229 | The walk up the parents and the repeated passes down the children revoke exactly the tokens of the session, none missed and no other touched |
| `AuthService.Server.RevokeAllSessions` | crates/hc-api/src/auth_handlers.rs:32-56 | Revokes exactly the unexpired tokens of the person |
| `AuthService.Server.BringKeysWithinRole` | crates/hc-api/src/auth_handlers.rs:80-108 | Narrows each of the person's own unrevoked keys to the role, or revokes them when the person is gone; no other key changes |
| `AuthService.Server.StillHasAdmin` | crates/hc-api/src/auth_handlers.rs:61-71 | True exactly when someone is an admin once the change is made |
| `AuthService.Server.NoteSessionEnded` | crates/hc-api/src/lib.rs:946-954 | Drops notes one token lifetime old and adds this one |
| `AuthService.Server.HandleLogin` | crates/hc-api/src/auth_handlers.rs:114-210 | Stores the first token of a new session and mints the access token naming it |
| `AuthService.Server.HandleRefresh` | crates/hc-api/src/auth_handlers.rs:448-604 | Reuse revokes the whole chain and notes the end; otherwise exactly a usable token of an existing person is rotated |
| `AuthService.Server.HandleLogout` | crates/hc-api/src/auth_handlers.rs:296-319 | Ends the session of a usable token and changes nothing otherwise |
| `AuthService.Server.HandleEndSession` | crates/hc-api/src/auth_handlers.rs:255-290 | Ends the session of a token of the caller's own and of no one else's |
| `AuthService.Server.HandleSignOutEverywhere` | crates/hc-api/src/auth_handlers.rs:340-389 | Bumps the version and revokes the person's refresh tokens |
| `AuthService.Server.HandleSetUserRole` | crates/hc-api/src/auth_handlers.rs:965-1044 | New role, bumped version, revoked tokens and narrowed keys together, or nothing |
| `AuthService.Server.HandleDeleteUser` | crates/hc-api/src/auth_handlers.rs:902-962 | Person gone, tokens revoked and keys revoked together, or nothing |
| `AuthService.Server.HandleCreateApiKey` | crates/hc-api/src/api_key_handlers.rs:92-244 | A key is made only within what the caller may grant to that owner, retired scopes dropped |
| `AuthService.Server.HandleUpdateApiKey` | crates/hc-api/src/api_key_handlers.rs:318-396 | New scopes are taken only within what the caller may grant to the key's owner |
| `AuthService.Server.HandleRevokeApiKey` | crates/hc-api/src/api_key_handlers.rs:278-315 | Revokes a key the caller may manage |
| `AuthService.Server.HandleRotateApiKey` | crates/hc-state/src/api_key_store.rs:187-215 | Replacing the secret of a key the caller may manage leaves it unrevoked |
| `Enrollment.RunIsSound` | crates/hc-api/src/plugin_runtime_handlers.rs:152-299 | Over every interleaving of enroll, poll, approve, deny, token issue and time: records agree with the history, tokens are spent at most once, and open requests stay within the limit |
| `Enrollment.OnlyLatestKeyAuthenticates` | crates/hc-api/src/plugin_runtime_handlers.rs:131-148 | A key lets a runtime in exactly when the runtime is approved and it is the key handed out last; and then an approval came after the last denial |
| `Enrollment.KeyNamesOneRuntime` | crates/hc-api/src/plugin_runtime_handlers.rs:91-148 | No API key ever authenticates two runtimes |
| `Enrollment.ReplacedKeyIsDead` | crates/hc-api/src/plugin_runtime_handlers.rs:91-148 | A key that was a runtime's and no longer is never authenticates again, that runtime or any other |
| `Enrollment.OpenRequestsBounded` | crates/hc-api/src/plugin_runtimes.rs:102-146 | Open pending records never exceed the configured maximum |
| `Enrollment.TokensWorkOnce` | crates/hc-api/src/plugin_runtime_handlers.rs:326-345 | No enrollment token ever approves twice |
| `Enrollment.IdentityIsForGood` | crates/hc-api/src/plugin_runtimes.rs:66-68 | A runtime id's public key, capabilities and, once set, plugin id never change |
| `Enrollment.StepKeepsSound` | crates/hc-api/src/plugin_runtime_handlers.rs:192-277 | Each step keeps that agreement |
| `Enrollment.DenialLimitHolds` | crates/hc-api/src/plugin_runtimes.rs:105-115 | At the denial limit, or while cooling down, an enrollment changes no record, whatever token it brings |
| `Enrollment.TokenOnlyNeverWaits` | crates/hc-api/src/plugin_runtimes.rs:124-132 | Where a token is required no record is ever pending, over every run |
| `Enrollment.WelcomeEnrollAuthenticates` | crates/hc-api/src/plugin_runtime_handlers.rs:91-148 | An enrollment that is already approved or brings a good token, and may ask, ends with a key that authenticates |
| `Enrollment.Registry.HandleEnroll` | crates/hc-api/src/plugin_runtime_handlers.rs:152-299 | The handler over the stored records does exactly the enroll step |
| `Enrollment.Registry.HandlePoll` | crates/hc-api/src/plugin_runtime_handlers.rs:353-450 | Hands out a key exactly to an approved runtime that presents its secret, and that key then authenticates |
| `Enrollment.Registry.HandleApprove` | crates/hc-api/src/plugin_runtime_handlers.rs:465-502 | Approves a known request that has not expired, and otherwise changes nothing |
| `Enrollment.Registry.HandleDeny` | crates/hc-api/src/plugin_runtime_handlers.rs:504-531 | Denies, forgets the secret, counts the denial and starts the cooldown at the limit |
| `Enrollment.Registry.PendingCount` | crates/hc-state/src/plugin_runtime_store.rs:230-241 | Counts exactly the open pending records |
| `Host.RunSafe` | runtime-host/src/install.rs:115-210 | From an empty disk, over any passes and a kill after any step of any of them: a marker stands only on a complete install of that id and version, and whatever runs runs from a marked directory |
| `Host.PassSafe` | runtime-host/src/reconcile.rs:101-185 | Every state inside a pass keeps that |
| `Host.InstallSparesLive` | runtime-host/src/reconcile.rs:167-185 | An install is only begun for a directory no live plugin runs from |
| `Host.PassAchieves` | runtime-host/src/reconcile.rs:101-161 | After a pass over distinct ids every plugin that did not fail runs with exactly its desired version and config, every failed one is as it was, and nothing else runs |
| `Host.PassConfigures` | runtime-host/src/reconcile.rs:136-185 | After a pass whatever it started or restarted has a complete install on disk holding exactly its desired config |
| `Host.RepeatedPassIsIdle` | runtime-host/src/reconcile.rs:101-161 | Repeating a pass in which nothing failed takes no step at all, whatever the world does meanwhile |
| `Host.ReportPartitions` | runtime-host/src/reconcile.rs:122-133 | Started, restarted, unchanged and failed together list the desired ids, each as often as it was asked for |
| `Host.DepartAchieves` | runtime-host/src/reconcile.rs:101-121 | Departed plugins stop and their directories go; everything else stays |
| `Host.Reconciler.Install` | runtime-host/src/install.rs:125-210 | Goes through exactly the specified states, the marker last, the directory removed on failure |
| `Host.Reconciler.ConvergeOne` | runtime-host/src/reconcile.rs:136-161 | Provisions first, and only then stops the old and starts the new |
| `Host.Reconciler.Converge` | runtime-host/src/reconcile.rs:101-134 | A pass goes through exactly the specified states, stops exactly the departed and reports each plugin under its outcome |
| `Supervisor.HeadFollowsStreak` | runtime-host/src/supervisor.rs:62-150 | At every loop head the back-off is min(60, 2^(failures+1)), a notice is out exactly when at least three rounds in a row failed, and notices alternate raise and withdraw |
| `Supervisor.LaunchesTakeTime` | runtime-host/src/supervisor.rs:28-150 | n launch-and-wait rounds take at least 18n - 42 seconds, and five rounds at least 92 seconds in the long run |
| `Supervisor.FastestIsReached` | runtime-host/src/supervisor.rs:28-150 | The rate of 92 seconds for five rounds is met exactly, for ever, by four failed starts and one run of a minute |
| `Supervisor.Supervise` | runtime-host/src/supervisor.rs:55-150 | The loop completes every round up to the one that brings shutdown, and its notices alternate even when shutdown cuts a round short |
| `Render.RenderIsSubstitution` | runtime-host/src/adapter.rs:83-99 | For templates without nested braces and brace-free names and values, every order of the variables gives the simultaneous substitution, and rendering fails exactly on an unknown placeholder |
| `Render.RenderIsSubstitutionIff` | runtime-host/src/adapter.rs:83-99 | For brace-free names and values and any order of them, rendering is the simultaneous substitution exactly when no stray braces nest in the template or one of its placeholders is unknown |
| `Render.AlwaysSubstitutesIff` | runtime-host/src/adapter.rs:83-99 | A template is rendered to the simultaneous substitution under every order of every brace-free map exactly when no stray braces nest in it |
| `Render.NestedDependsOnOrder` | runtime-host/src/adapter.rs:83-99 | A placeholder inside braces is filled or refused by the order of the variables, for any two names |
| `Render.BracesInValueDependOnOrder` | runtime-host/src/adapter.rs:83-99 | So is a placeholder that comes in with a value |
| `Render.Render` | runtime-host/src/adapter.rs:83-99 | The command line is refused exactly when one of its arguments is, and otherwise holds each argument rendered |
| `RateLimit.LimiterAgrees` | crates/hc-api/src/rate_limit.rs:50-71 | For call times in order the pruned limiter accepts exactly when a log that is never pruned holds fewer than five accepted attempts of the address younger than a minute |
| `RateLimit.AcceptsAreTheLog` | crates/hc-api/src/rate_limit.rs:50-71 | The attempts the limiter accepts, over all addresses and with its pruning, are exactly those of the never-pruned log |
| `RateLimit.AtMostFivePerWindow` | crates/hc-api/src/rate_limit.rs:50-71 | In any half-open minute, wherever it begins, the limiter accepts at most five attempts of one address |
| `RateLimit.OthersDoNotMatter` | crates/hc-api/src/rate_limit.rs:50-71 | The shared buckets give an attempt the very verdict, wait included, they would give it had its address been alone |
| `RateLimit.RetryAfterIsRight` | crates/hc-api/src/rate_limit.rs:60-67 | The attempt made Retry-After seconds after a refusal is accepted if the address had none accepted between, and one made more than a second sooner is refused |
| `RateLimit.Limiter.Record` | crates/hc-api/src/rate_limit.rs:50-71 | The stored buckets and the verdict are those of the specification |
| `RateLimit.RetainYoung` | crates/hc-api/src/rate_limit.rs:55-58 | The retain loop keeps exactly the young attempts, in order |
| `Versions.VersionsFlip` | crates/hc-api/src/registry.rs:148-191 | Swapping the two versions turns the answer round, for all versions |
| `Versions.VersionsTransitive` | crates/hc-api/src/registry.rs:148-191 | Among versions whose positions each hold numbers or each hold text, the comparison is a total preorder |
| `Versions.ReleasesShareShape` | crates/hc-api/src/registry.rs:148-191 | Versions of a fixed count of numbers with at most one textual suffix are such versions |
| `Versions.NumericVersions` | crates/hc-api/src/registry.rs:148-191 | On all-numeric versions the comparison is dictionary order on the numbers |
| `Versions.ReleaseOrder` | crates/hc-api/src/registry.rs:161-180 | With equal counts of numbers the numbers decide, a pre-release sorts below its release, and pre-releases sort as text |
| `Versions.MeetingIsOrderedIff` | crates/hc-api/src/registry.rs:161-180 | A textual and a numeric extra segment of one version are in ascending order around it exactly when the text sorts below the digits |
| `Versions.CircleAroundEveryVersion` | crates/hc-api/src/registry.rs:148-191 | For every version p: p-rc1 is below p, p below p.1, and p.1 below p-rc1 |
| `Versions.PicksAreOrderIndependent` | crates/hc-api/src/registry.rs:112-131 | On versions of one shape both picks are maximal and do not depend on the order of the list, up to Equal |
| `Versions.RunsOnNewerCore` | crates/hc-api/src/registry.rs:64-67 | What runs on a core runs on every newer core, when the three versions are of one shape |
| `Versions.NewerCoreCanRefuse` | crates/hc-api/src/registry.rs:64-67 | For every p, what asks for p-rc1 runs on p and not on the newer p.1 |
| `Versions.PickCanDependOnOrder` | crates/hc-api/src/registry.rs:112-119 | For every p, a list of p-rc1, p and p.1 has a different newest in another order |
| `ConfigDocument.ValuesReadBackIff` | crates/hc-api/src/config_writer.rs:279-313 | A JSON value is stored and reads back as it was exactly when nothing in it is null, an object or an integer beyond 64 bits |
| `ConfigDocument.WrittenIff` | crates/hc-api/src/config_writer.rs:247-272 | What the text written holds: a path is in it exactly when a value, a list with rows or a table with a header of its own lies at or below it, since tables that were only implied are not written by themselves |
| `ConfigWriter.PatchReadsBackIff` | crates/hc-api/src/config_writer.rs:77-111 | After a successful patch the file has every non-null field as its patched value and no null field exactly when no patched field lies above one that is given a value |
| `ConfigWriter.GivenFieldReadsBackIff` | crates/hc-api/src/config_writer.rs:77-111 | A field given a value is in the file with it exactly when no later section patches above it |
| `ConfigWriter.RemovedFieldIsAbsentIff` | crates/hc-api/src/config_writer.rs:77-111 | A null field is absent from the file exactly when no value that survives is patched below it |
| `ConfigWriter.PatchFrames` | crates/hc-api/src/config_writer.rs:77-111 | Every value and list of tables not at or under a patched field is in the file as it was |
| `ConfigWriter.PresentAfterPatchIff` | crates/hc-api/src/config_writer.rs:77-111 | A path is in the file afterwards exactly when something at or below it was there on its own account and is not patched at or above, or a value that survives is patched at or below it |
| `ConfigWriter.ImpliedTableGoesToo` | crates/hc-api/src/config_writer.rs:247-272 | A concrete file and patch: removing the one table under an implied one takes both out of the file |
| `ConfigWriter.RemovedFieldCanComeBack` | crates/hc-api/src/config_writer.rs:77-111 | A concrete patch in which a removed field is a table afterwards |
| `ConfigDocument.EditSucceedsIff` | crates/hc-api/src/config_writer.rs:247-272 | Walking to a section fails exactly when it crosses something that is not a table, or the edit itself fails |
| `ConfigWriter.ApplySectionPatch` | crates/hc-api/src/config_writer.rs:77-111 | The section loop computes the specified patch or fails as it does |
| `ConfigWriter.ApplyFields` | crates/hc-api/src/config_writer.rs:92-107 | The field loop of a section: nulls taken out, values put in |
| `ConfigWriter.RowsSayItems` | crates/hc-api/src/config_writer.rs:128-179 | One row for each item, in order, holding its values up to an integer stored as a float where a float was; what else a row holds are tables it had already |
| `ConfigWriter.ReplacedFrames` | crates/hc-api/src/config_writer.rs:128-179 | Off the list's own path every value and every other list is in the file as it was |
| `ConfigWriter.PresentAfterReplaceIff` | crates/hc-api/src/config_writer.rs:128-179 | A path is in the file afterwards exactly when something besides the list keeps it there, or it leads to the list and the list has rows |
| `ConfigWriter.ReplaceIsIdempotent` | crates/hc-api/src/config_writer.rs:128-238 | Writing the same items again changes nothing |
| `ConfigWriter.UpdateRow` | crates/hc-api/src/config_writer.rs:201-238 | Removes values the item no longer has, leaves tables, and writes the item's values coerced to the stored kind; fails exactly on a value the file cannot hold |
| `ConfigWriter.UpdateRows` | crates/hc-api/src/config_writer.rs:154-170 | Rows updated by position, appended and dropped, give the specified rows |
| `Vocabulary.WalkSettles` | scripts/vocabulary-rewrite.py:200-211 | One walk leaves no rule of the phase applicable anywhere, for every tree, device table and order of verbs |
| `Vocabulary.SettledIsFixed` | scripts/vocabulary-rewrite.py:200-211 | A tree in which no rule applies is left exactly as it is |
| `Vocabulary.WalkIsIdempotent` | scripts/vocabulary-rewrite.py:200-211 | Walking an already rewritten tree changes nothing, even with the verbs in another order |
| `Vocabulary.WalkedDoesNotRaise` | scripts/vocabulary-rewrite.py:180-211 | A second walk does not stop with an error where the first did not |
| `Vocabulary.RenamesLoseNothing` | scripts/vocabulary-rewrite.py:164-178 | Key renames inside a command overwrite no key and lose no value: there is a one-to-one account of where each field went |
| `Vocabulary.LedLosesNothingIff` | scripts/vocabulary-rewrite.py:156-159 | Spreading a keypad light's fields into the command loses nothing exactly when they differ from no field the command has of its own, and from the action |
| `Vocabulary.VerbLosesNothing` | scripts/vocabulary-rewrite.py:160-163 | Turning a verb into the action takes away only the verb's own key |
| `Vocabulary.TablesHaveNoChains` | scripts/vocabulary-rewrite.py:42-92 | In every table no new name is an old name |
| `Vocabulary.ReadsStayApart` | scripts/vocabulary-rewrite.py:42-75 | No two old attribute names of a device become the same new one |
| `Vocabulary.RewriteCommand` | scripts/vocabulary-rewrite.py:153-178 | The command rewrite computes the specified fields and leaves none of its rules applicable |
| `Vocabulary.RenameKeys` | scripts/vocabulary-rewrite.py:164-174 | The pop-and-re-add loop computes the specified renames |
| `Vocabulary.ActOnVerbs` | scripts/vocabulary-rewrite.py:160-163 | The verb loop turns the first true verb into the action |
| `Backup.DestinationIsPlace` | crates/hc-api/src/backup.rs:672-710 | An entry's name leads to the file with the same role on whatever host it is restored to |
| `Backup.RoundTrip` | crates/hc-api/src/backup.rs:369-458 | Restoring a fresh archive on its own host gives every archived file its original contents and touches nothing else, whatever became of the files since |
| `Backup.MovesToOtherHost` | crates/hc-api/src/backup.rs:672-710 | On another host with a place for everything, plugins in the store included, every archived file is at the place with its role there and nothing else is touched |
| `Backup.RestoresAllIff` | crates/hc-api/src/backup.rs:792-828 | Every entry is in its place after a restore exactly when entries that go to one place hold the same |
| `Backup.TouchesNothingElse` | crates/hc-api/src/backup.rs:792-828 | A path that is no entry's destination is untouched |
| `Backup.BackupFailsIff` | crates/hc-api/src/backup.rs:369-432 | A backup fails exactly when one of the two databases is missing, and includes every rule file |
| `Backup.PlanSharesOut` | crates/hc-api/src/backup.rs:714-757 | Every entry is listed once, as restored exactly when it has a destination |
| `Backup.PlanRestore` | crates/hc-api/src/backup.rs:714-757 | Refuses exactly an archive with no state database, and otherwise lists what the restore lists |
| `Backup.Host.BuildZip` | crates/hc-api/src/backup.rs:369-458 | The archive built is the specified one |
| `Backup.Host.ExtractRestore` | crates/hc-api/src/backup.rs:792-828 | The files written and the two lists reported are the specified ones, so they are the plan's |

## Left out

Assumed throughout: each request is one atomic step and store calls succeed, although the
code holds no lock across them; ids, keys and secrets are drawn fresh and cannot be
guessed; password, PIN, signature and hash checks are ideal.

- Refresh-token pruning, process restarts of the server and the reloading of ended sessions.
- Address limits on API keys, audit entries and the summaries the list handlers return.
- ModeCascade.CascadeSettles: definitions whose on and off conditions can hold together are not covered, because no setting of the mode is then right; a mode set by a rule is stamped as changed by a rule, without that rule's id and name, and the clock stands still while events are handled.
- ModeBus.BusSettles: criteria that ask when, or by whom, a managed mode was last changed are not covered, as what they say moves with the clock and with every command; leaves that read the clock, alerts or a script that itself reads modes are held fixed while the modes settle. It is about runs in which no message is lost, see the next line.
- ModeBus.StepConsistent: a receiver that lags behind a broadcast bus loses messages (`crates/hc-core/src/engine.rs:394-396`), and there is no such step; after a lost device report the cache can be wrong for good. The two buses the engine listens on are one queue here, into which notes that only start rules may be put at any time.
- ModeTargets.SettledStateIsUnique: a managed mode that criteria read as a device is taken to have a boolean `on`, as the mode manager writes for every mode it starts with.
- Conditions.HoldsDependsOnRefs: a condition on how long ago a device changed is taken as a fact about that device.
- ModeBus.FiveRounds: a round is one in which every message and command under way at its start arrives and every periodic rule is tried; nothing is said of how long one takes.
- Enrollment.IdentityIsForGood: plugin ids are formed with ASCII trimming and lower-casing only; signatures, codes shown to the operator and MQTT passwords are not modelled.
- Host.RunSafe: removing a directory and writing one file are single steps, and a removal that fails halfway is not modelled.
- Host.Reconciler.ConvergeOne: what the fetch, the commands and the launch template do is a parameter; waiting for the old process to end, with its 30 second limit, is not modelled.
- Supervisor.Supervise: the count of failures is unbounded where the code has 32 bits, and log output is left out.
- Versions.VersionsTransitive: states the order for versions of one shape; for mixed shapes MeetingIsOrderedIff says exactly when a version and its two extensions are in order.
- RateLimit.LimiterAgrees: call times are taken in order; readings of the clock that reach the lock out of order are modelled by the age of zero the code gives them but not covered by the result.
- ConfigWriter.PatchReadsBackIff: comments, order and formatting are not in the tree, and numbers are exact where the code rounds to 64-bit floats; a table made by dotted keys counts as implied, and implied tables inside a row of a list are kept.
- ConfigWriter.UpdateRow: models the document as a value that is replaced, not as nodes updated in place; so do the other document edits.
- Vocabulary.WalkSettles: models the tree as a value rather than as dictionaries changed in place, and leaves out the notes printed for review; a device with a null plugin or type counts as having an empty one.
- Backup.RoundTrip: names are lists of components, so entries with a trailing slash and ids that are not one plain component are not covered; time stamps and the staging of a restore are left out.
- `homecore/src/plugin_manager.rs` supervision, HTTP routing, WebSockets, MQTT, metrics, the web typings, command-line output and the signature and download side of the registry.
