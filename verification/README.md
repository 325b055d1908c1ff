# The panel's state machines

Dingzi is a monitoring panel: agents on machines hold a WebSocket to one server, which stores their
samples, bills their traffic, runs service checks, raises alerts and opens web terminals. This
project models the server's own state machines and proves what they are built to guarantee. Paths
below are relative to the repository.

| file | what it models |
|---|---|
| `Calendar.dfy` | the proleptic Gregorian calendar of Go's `time` (ISO 8601:2004, section 3.2.1) in day numbers, and the billing boundary |
| `Traffic.dfy` | the saturating billing-cycle totals, saving and loading them, crashes, and PATCH requests |
| `AlertRules.dfy` | one alert rule, as the incremental machine of the evaluator and as a statement about the whole log |
| `AlertQueue.dfy` | the table of alert events as a retry queue |
| `AlertEngine.dfy` | a pass over all rules that may fail half-way, and the requests that reset states |
| `TerminalRegistry.dfy` | the terminal sessions: three maps and two counters |
| `TerminalProtocol.dfy` | browser handler, agent handler, settings, deletion and shutdown, interleaved, over that registry |
| `Hub.dfy` | the live fleet with its two indexes and current connections |
| `Identity.dfy` | credentials, machine rows, live fleet and agent handlers as one system under the identity lock |
| `Monitors.dfy` | the check scheduler, its sixteen slots and the revision fence |
| `AgentConn.dfy` | requests and replies on one agent connection |
| `Sessions.dfy` | login sessions and the throttle on password attempts |
| `Ring.dfy` | the ring of recent samples |
| `Commons.dfy` | what they share |

Each object that the source updates in place is a class whose methods are proved equal to a
specification function of the old state; the theorems are about runs of those functions. Handlers
that run concurrently are steps of one system, split wherever the source releases a lock (but for the
requests named under "Left out"), and the theorems hold for every interleaving. The terminal protocol and the scheduler are tied to their
classes by refinement lemmas (`BrowserIsRegistryOperation` and its companions, `PassIsSchedule`).
`dafny verify dfyconfig.toml` checks everything.

Seven promises turn out not to hold in general. Each has a lemma with an input that breaks it and a
lemma that says exactly when it holds:

- a crash within a cycle loses and adds nothing: false for a machine whose first reading has not been
  saved yet (`CrashForgetsBaseline`), and for a raw counter above 2^63-1, which the database clamps
  (`CrashOvercounts`); exact in `CrashExact`;
- editing a machine without changing its reset day leaves its accounting alone: false when the
  panel restarts before the next save and the saved row is of an ended cycle, because the request
  writes the new cycle start over the old totals (`PatchRevivesOldCycle`, `PatchThenCrash`);
- changing the reset day starts an empty cycle: false when the panel restarts before the next save
  and the saved baseline is older than the live one (`PatchBillsOldTraffic`, `PatchResetThenCrash`);
- a notification is sent at most three times: false when a send is not recorded, because the panel
  stops or the update fails after it (`SlipsAreResent`, `SendsAreBounded`, `SendsAreRecorded`);
- an attached connection's credential is unrevoked: false for a machine between the transaction of
  its own delete and its removal from the hub (`RevokedWhileAttached`, `AttachedMeansBound`);
- whoever waits for a reply on a connection can be answered, and each entry is removed exactly once:
  both false once 2^64 further requests are made while one is waiting (`ReusedIdStealsTheReply`,
  `ConnectionPromises`).

What is assumed: newly minted tokens, session tokens and connections are fresh; hashing is
injective; a database statement or transaction applies as a whole or not at all, and a failed
commit applied nothing; automatic row ids are never used twice, as the schema demands. Observations,
notifications, check results and agent frames are arbitrary inputs.

## Model

| member | source | states |
|---|---|---|
| Calendar.MonthsTile | internal/server/traffic.go:128-158 | the months of the Gregorian calendar tile the day numbers without gap or overlap |
| Calendar.DaysBeforeClosedForm | internal/server/traffic.go:149-153 | the days before each month by the usual formula, which fixes every month's length |
| Calendar.YearStartClosedForm | internal/server/traffic.go:128-158 | laying years end to end agrees with the closed Gregorian formula, and 1 January 1970 is the epoch day |
| Calendar.DateOf | internal/server/traffic.go:128-141 | the date of a day number is the valid date that has that day number |
| Calendar.DateUnique | internal/server/traffic.go:128-141 | a day number has only one valid date |
| Calendar.ClampDayMeaning | internal/server/traffic.go:149-158 | `clampDay` picks the requested day, or the last day of a month that is too short |
| Calendar.ResetIsBoundary | internal/server/traffic.go:130-139 | the instant built from the clamped day is the boundary an operator means for that month |
| Calendar.BoundariesIncrease | internal/server/traffic.go:128-158 | the boundary of a later month is later |
| Calendar.BoundarySpacing | internal/server/traffic.go:128-158 | consecutive boundaries are 28 to 31 days apart, for every reset day and leap year |
| Calendar.CycleCases | internal/server/traffic.go:128-141 | the cycle starts at this month's boundary, or at last month's before this one is reached |
| Calendar.CycleStartIsLatest | internal/server/traffic.go:126-141 | `CycleStart` is the greatest of all months' boundaries at or before `now` |
| Calendar.CycleStartMonotone | internal/server/traffic.go:126-141 | `CycleStart` never moves back, and is constant up to the next boundary |
| Calendar.CycleStartIdempotent | internal/server/traffic.go:126-141 | the start of a cycle belongs to that cycle |
| Calendar.CycleAge | internal/server/traffic.go:126-141 | no cycle is 31 days old or older |
| TrafficAccounting.AddCounter | internal/server/traffic.go:92-98 | the sum saturates at 2^63-1 and never wraps |
| TrafficAccounting.Traffic.RollCycle | internal/server/traffic.go:114-124 | the new record is the specified roll of the old one |
| TrafficAccounting.DeltaMeans | internal/server/traffic.go:106-111 | the delta leads from the previous reading to this one, or after a reset is the whole value |
| TrafficAccounting.Traffic.Accumulate | internal/server/traffic.go:58-80 | the new record is the specified fold of the reading into the old one; count mode and reset day are kept or defaulted |
| TrafficAccounting.RunBookkeeping | internal/server/traffic.go:58-80 | after any run: last reading as baseline, the count mode and reset day of the start or their defaults, the cycle of the latest time seen |
| TrafficAccounting.BilledNeverWraps | internal/server/traffic.go:161-173 | after any run what is billed is what the starting count mode says, and the unsigned sum is the true sum |
| TrafficAccounting.PatchKeeps | internal/server/api.go:239-292 | a PATCH sets the configuration it asks for; one that keeps the reset day leaves live totals and cycle, and none touches a baseline |
| TrafficAccounting.OneReading | internal/server/traffic.go:58-80 | one reading moves the baseline, the cycle and each total as the billing rule says |
| TrafficAccounting.TotalsLaw | internal/server/traffic.go:58-124 | for every start record in range and readings in any order of time, each total is the saturated sum of the reports since the current boundary, the straddling one included |
| TrafficAccounting.FreshTotals | internal/server/traffic.go:58-124 | for a new machine and ordered readings: the total is min(2^63-1, sum of the deltas taken at or after the boundary) |
| TrafficAccounting.SteadyTotal | internal/server/traffic.go:58-111 | a run within a cycle whose counters do not go back adds what the counter moved since the baseline, or since the first reading |
| TrafficAccounting.LostReadings | internal/server/traffic.go:77-111 | within a cycle, and while counters do not go back, losing any readings after the baseline leaves the same record |
| TrafficAccounting.LostExact | internal/server/traffic.go:70-80 | with or without a baseline: lost readings cost nothing if and only if there is a baseline, or nothing moved since the first of them, or the total was saturated |
| TrafficAccounting.SaveLoad | internal/server/store_query.go:21-39 | a record survives the database if and only if its counters fit a signed integer, its cycle is unset or a whole second after 1970, and the row has its configuration |
| TrafficAccounting.CrashExact | internal/server/store_query.go:81-111 | for every record, also one without a reading: a crash within a cycle costs nothing if and only if the saved baseline fits a signed integer or the total saturates, or, without a baseline, nothing moved since the first lost reading |
| TrafficAccounting.CrashForgetsBaseline | internal/server/store_query.go:100-107 | a machine that is new at any time and whose first reading was not yet saved: a restart does not count 100 bytes |
| TrafficAccounting.CrashOvercounts | internal/server/traffic.go:85-90 | for a machine that is new at any time: a first reading above 2^63-1, with which a restart counts a byte twice |
| TrafficAccounting.PatchResets | internal/server/api.go:262-292 | a changed reset day starts an empty cycle at its latest boundary, in memory and in the database, each with its own baseline |
| TrafficAccounting.PatchResetThenCrash | internal/server/api.go:273-281 | the next total after such a PATCH, live and after a restart: each is the report against its own baseline, and with counters in range they agree if and only if the baselines do |
| TrafficAccounting.PatchBillsOldTraffic | internal/server/api.go:273-281 | a machine that is new at any time: a restart after such a PATCH bills traffic from before it |
| TrafficAccounting.PatchThenCrash | internal/server/api.go:273-281 | for any next reading: a PATCH that keeps the reset day, followed by a restart, changes a total if and only if the saved and the live cycle disagree on keeping the saved total, it is not empty, and the reading does not saturate |
| TrafficAccounting.PatchRevivesOldCycle | internal/server/api.go:273-281 | for any two times in different cycles: a machine whose 100 saved bytes of the ended cycle count again |
| AlertRules.DecideTracks | internal/server/alerts.go:409-431 | one evaluation keeps the stored row in step with the whole log and reports what it should |
| AlertRules.SustainedFromRunStart | internal/server/alerts.go:410-424 | the condition has held for its duration exactly when the current run of hot evaluations began early enough |
| AlertRules.ReportsAsExpected | internal/server/alerts.go:405-462 | over every log since the last reset: it fires exactly when the condition was met for the duration without a pause over 15 s and no alert is up, and recovers exactly when one is up and a known value is below the threshold |
| AlertRules.EventsAlternate | internal/server/alerts.go:419-428 | "firing" and "recovered" take turns, for any observations and clock |
| AlertRules.UnknownIsQuiet | internal/server/alerts.go:414-428 | an unknown value reports nothing and neither raises nor clears an alert |
| AlertRules.SkippedWritesAreSilent | internal/server/alerts.go:429-437 | skipping unchanged writes emits exactly the events of an evaluator that writes every time |
| AlertEngines.Judge | internal/server/alerts.go:409-431 | the loop body's assignments compute the specified decision |
| AlertEngines.Pass | internal/server/alerts.go:405-463 | the loop over the rules: rows follow the logs, the queue receives the due reports in order, and the first failed commit ends the pass before that rule |
| AlertEngines.Evaluated | internal/server/alerts.go:409-438 | an evaluation extends a faithful log, and skips its write only when there is nothing to report |
| AlertEngines.Engine.Evaluate | internal/server/alerts.go:396-464 | one pass keeps the engine valid and adds exactly the due reports of the rules it reached |
| AlertEngines.Engine.UpdateRule | internal/server/alerts.go:303-323 | saving a rule replaces it and forgets its state and no other |
| AlertEngines.Engine.CreateRule | internal/server/alerts.go:288-302 | a new rule gets a new id and no state, up to 200 rules |
| AlertEngines.Engine.DeleteRule | internal/server/alerts.go:334-346 | the rule goes with its state and no other, and its events lose only the reference to it |
| AlertEngines.Engine.MonitorChanged | internal/server/monitors.go:237-242 | pointing a monitor elsewhere forgets the states of exactly the rules on it |
| AlertEngines.Engine.TakeDue | internal/server/alerts.go:561-567 | reads the due event with the lowest id |
| AlertEngines.Engine.SettleTaken | internal/server/alerts.go:568-595 | settles the row of the event that was read as `AlertQueue.SettleMeans` says; an accepted send is delivered |
| AlertEngines.ObservedMeans | internal/server/alerts.go:409 | a pass sees a value only where one is known now |
| AlertEngines.ReportBecomesRow | internal/server/alerts.go:438-453 | a report adds one row for its rule, time and channel, pending exactly while fewer than 1000 are; no report adds none |
| AlertQueue.SettleMeans | internal/server/alerts.go:568-595 | an accepted send is delivered, nothing to send on is skipped, a refused one failed exactly at the third attempt and otherwise pending after its wait; nothing else changes |
| AlertQueue.DeliveredIffAccepted | internal/server/alerts.go:560-596 | over any run a pending event is delivered if and only if a send of it was accepted and recorded |
| AlertQueue.AcceptedIsFinal | internal/server/alerts.go:560-596 | after an accepted and recorded send an event is never sent again |
| AlertQueue.InsertMeans | internal/server/alerts.go:444-451 | a report becomes one row, pending exactly while fewer than 1000 rows are and failed otherwise; a test notification is never pending |
| AlertQueue.HousekeepingMeans | internal/server/store_query.go:249-269 | pruning drops exactly the old rows; a deleted rule or channel is forgotten by exactly the rows that had it |
| AlertQueue.FirstDue | internal/server/alerts.go:561 | the due event with the lowest id, or none when none is due |
| AlertQueue.StepKeepsValid | internal/server/alerts.go:444-451 | every step keeps at most three attempts, fewer than three while pending, and at most 1000 pending |
| AlertQueue.StepProgress | internal/server/alerts.go:568-595 | no step undoes an attempt, revives a finished event or brings back a lost row |
| AlertQueue.EventFate | internal/server/alerts.go:560-596 | over any run finished states are absorbing and at most three attempts on an event are recorded |
| AlertQueue.SendsAreBounded | internal/server/alerts.go:580-595 | over any run an event is sent at most three times, and once more for each send that was not recorded |
| AlertQueue.SendsAreRecorded | internal/server/alerts.go:593-594 | the attempts in the row are exactly the recorded sends, and one more for a skipped event |
| AlertQueue.SlipsAreResent | internal/server/alerts.go:581-595 | concrete runs that reach the bound for every number of unrecorded sends: with one, an event is sent four times |
| AlertQueue.BackoffHolds | internal/server/alerts.go:593-594 | an event that stays pending is not picked again before its wait of 30 or 60 seconds has passed |
| AlertQueue.StepSpends | internal/server/alerts.go:560-596 | each selecting call that ends without an error uses up the attempts left to the events before a waiting one |
| AlertQueue.AttemptedInTime | internal/server/alerts.go:560-596 | a due event with k pending events of lower id is attempted within 3k+1 error-free selecting calls, whatever else happens to the table |
| TerminalRegistry.Registry.ReserveSession | internal/server/terminal.go:81-123 | sweeps expired reservations, then reserves or refuses by the caps; counters stay exact |
| TerminalRegistry.Registry.Sweep | internal/server/terminal.go:94-104 | forgets exactly the expired reservations and closes their connections |
| TerminalRegistry.Registry.ClaimSession | internal/server/terminal.go:129-147 | a token is claimed once and only while fresh; an expired one is forgotten |
| TerminalRegistry.Registry.ReleaseSession | internal/server/terminal.go:150-165 | gives back the slot of an owned token, once |
| TerminalRegistry.Registry.TrackConn | internal/server/terminal.go:167-176 | a connection joins its owned session or is closed |
| TerminalRegistry.Registry.CloseSessions | internal/server/terminal.go:178-193 | closes exactly the sessions of the machine, or all for machine 0 |
| TerminalRegistry.Registry.Forget | internal/server/terminal.go:196-206 | the guards of `drop` never act: forgetting one owned token keeps the counters exact |
| TerminalRegistry.Registry.Drop | internal/server/terminal.go:196-206 | decrements without going below zero and leaves no zero entry |
| TerminalRegistry.ReserveMeans | internal/server/terminal.go:106-111 | a reservation succeeds exactly while fewer than 16 sessions live and fewer than 4 of the machine |
| TerminalRegistry.ReserveLeaves | internal/server/terminal.go:94-122 | exactly the expired reservations go, and the new session is owned, pending from now and unconnected |
| TerminalRegistry.ClaimMeans | internal/server/terminal.go:129-147 | a claim succeeds exactly on a reservation of at most 30 seconds, keeps its slot and uses the token up |
| TerminalRegistry.FreeingMeans | internal/server/terminal.go:150-193 | releasing and closing free exactly the sessions concerned and close all their connections |
| TerminalRegistry.TrackMeans | internal/server/terminal.go:167-176 | a connection is tracked exactly for an owned session and closed otherwise |
| TerminalRegistry.CountedMore | internal/server/terminal.go:118-121 | exact counters stay exact when a session is added |
| TerminalRegistry.CountedLess | internal/server/terminal.go:196-206 | exact counters stay exact when `drop` takes one away, and its guards do not act |
| TerminalRegistry.OneLess | internal/server/terminal.go:196-206 | removing one owned token takes one from its machine and from the total |
| TerminalRegistry.ReserveKeeps | internal/server/terminal.go:81-123 | a reservation keeps the maps consistent, at most 16 sessions and 4 of a machine |
| TerminalRegistry.WithoutKeeps | internal/server/terminal.go:94-104 | removing sessions keeps the maps consistent and the caps |
| TerminalRegistry.ClaimKeeps | internal/server/terminal.go:129-147 | a claim keeps the maps consistent and the caps |
| TerminalProtocol.CullsAreRegistryOperations | internal/server/terminal.go:94-104 | closing and sweeping sessions of the protocol are the registry's operations |
| TerminalProtocol.ReservationIsRegistryOperation | internal/server/terminal.go:294-308 | the protocol's reservation succeeds and acts as the registry's |
| TerminalProtocol.BrowserIsRegistryOperation | internal/server/terminal.go:307-351 | every step of the browser handler acts on the registry as the operation it calls |
| TerminalProtocol.AgentIsRegistryOperation | internal/server/terminal.go:382-409 | every step of the agent handler acts on the registry as the operation it calls |
| TerminalProtocol.NextKeepsInv | internal/server/terminal.go:294-409 | every step of every handler keeps the invariant |
| TerminalProtocol.SlotsAreAccountedFor | internal/server/terminal.go:300-310 | in every run the caps hold, and a slot is taken only while the browser handler that gives it back is there |
| TerminalProtocol.ChannelIsFree | internal/server/terminal.go:402-409 | the `default` of the deliver select is never taken |
| TerminalProtocol.DeliveredOnce | internal/server/terminal.go:402-405 | a session is delivered at most one agent connection |
| TerminalProtocol.NoConnectionLeaks | internal/server/terminal.go:341-351 | once both handlers have returned, the agent's connection is closed, in every interleaving |
| TerminalProtocol.DisallowedMeansNone | internal/server/settings.go:62-79 | whenever the control lock is free and terminals are disallowed, no session is owned |
| TerminalProtocol.AllowedMeans | internal/server/settings.go:40-42 | over any run terminals are allowed if and only if the option is on and the last setting stored, or the first one if none was, allows them |
| TerminalProtocol.DisallowingCloses | internal/server/settings.go:62-79 | from a save that disallows terminals, in every run until one allows them: no session is reserved, and whenever the lock is free none is owned |
| TerminalProtocol.TerminalOpens | internal/server/terminal.go:294-342 | from a free lock, with room, terminals allowed and the machine's own agent: the browser ends up bridged to the agent's connection |
| TerminalProtocol.SessionOpens | internal/server/terminal.go:307-404 | the handlers' steps on one session bridge and track both connections |
| TerminalProtocol.SessionCloses | internal/server/terminal.go:263-351 | a bridged session that ends gives its slot back and both its connections are closed |
| TerminalProtocol.WaitingBrowserReceives | internal/server/terminal.go:342-351 | a waiting browser gets the connection that was delivered to it |
| TerminalProtocol.FailuresGiveBack | internal/server/terminal.go:310-398 | every failing branch of the two handlers gives the slot back or goes to where it is |
| TerminalProtocol.ClosersMean | internal/server/terminal.go:178-193 | a save, a delete and shutting down close exactly the sessions concerned; a failed delete closes none |
| TerminalProtocol.PanelMeans | internal/server/settings.go:40-63 | the steps that take and free the control lock, register a machine and move the clock |
| TerminalProtocol.DeletedMachinesStayShut | internal/server/terminal.go:294-315 | in every run after a machine's delete, a session for it that had not passed the existence check, or is reserved later, never passes it, and one that had holds no slot |
| TerminalProtocol.BridgedToTheRightAgent | internal/server/terminal.go:389-394 | a browser is bridged only to the agent of the machine it asked for |
| FleetHub.Hub.PutMachine | internal/server/hub.go:142-156 | a known machine keeps its connection and identity; indexes stay inverse |
| FleetHub.Hub.AttachConn | internal/server/hub.go:162-176 | the machine gets the connection and the one it replaces is told to close |
| FleetHub.Hub.DetachConn | internal/server/hub.go:183-189 | only the current connection takes its machine offline |
| FleetHub.Hub.RemoveMachine | internal/server/hub.go:204-214 | the machine leaves both indexes and its connection is returned |
| FleetHub.Hub.GetByUUID | internal/server/hub.go:130-135 | finds the machine with the identity, and none exactly when there is none |
| FleetHub.ConnIsLatest | internal/server/hub.go:142-214 | after any operations a machine is known exactly when put and not removed since, and its connection is the latest attached one if its own detach has not run, and none otherwise |
| FleetHub.ToldWhenReplaced | internal/server/hub.go:173-175 | a connection is told to close exactly when another was attached in its place |
| Identities.Store.BindCredential | internal/server/credentials.go:49-65 | success means the token is the unrevoked one bound to the identity; an existing credential is left alone |
| Identities.Store.RegisterMachine | internal/server/store.go:143-172 | a known identity keeps its row id and its name; a new one gets an unused id |
| Identities.Store.DeleteMachine | internal/server/store_query.go:140-161 | revokes and deletes in one transaction, or does nothing |
| Identities.RunKeepsInv | internal/server/agentws.go:60-88 | every step of the handlers, of a delete and of a restart keeps rows, live machines, handlers and credentials consistent |
| Identities.HolderLetsGo | internal/server/agentws.go:60-87 | only the holder moves the identity lock, and every outcome of its steps brings it closer to being free |
| Identities.CredentialsAreForever | internal/server/credentials.go:49-65 | in every run the hash bound to an identity never changes and revocation is permanent |
| Identities.OneTokenPerIdentity | internal/server/credentials.go:24-47 | all connections that ever serve an identity came with the same token |
| Identities.ArrivalMeans | internal/server/credentials.go:25-47 | a connection is let in exactly with its identity's own unrevoked token, or, for an identity without a credential, with the enrolment key, and as the identity it says hello as |
| Identities.KeyIsNeeded | internal/server/credentials.go:43-46 | in every run from the start a token is newly bound, or serves, only if a connection brought it for that identity with the right enrolment key |
| Identities.LockedStepsMean | internal/server/agentws.go:60-88 | what binding, welcoming, attaching and unlocking do, and that a failure lets the lock go |
| Identities.RegisteringMeans | internal/server/agentws.go:67-74 | registering gives the identity its one row, and touches no other machine's |
| Identities.ListingMeans | internal/server/server.go:128-144 | the live machine has the row's facts and keeps its connection |
| Identities.OtherStepsMean | internal/server/api.go:297-321 | entering, leaving, deleting and restarting |
| Identities.AttachedMeansBound | internal/server/agentws.go:60-88 | in every reachable state an attached connection's token is bound to its machine's identity, and its credential is revoked if and only if that very machine is between the transaction and the hub removal of its own delete |
| Identities.RevokedWhileAttached | internal/server/api.go:310-317 | a concrete run into that window: a connection is attached whose credential is revoked |
| Identities.HubIsOneToOne | internal/server/server.go:128-144 | no two live machines share an identity, and registering meets the hub's contract |
| Identities.DeleteShuts | internal/server/api.go:297-321 | a completed delete, or one cut short by a restart, leaves nothing of the identity and tells its connection to close |
| Identities.StaysShut | internal/server/agentws.go:60-88 | no single step brings a deleted identity back |
| Identities.DeletedMachinesStayGone | internal/server/api.go:298-320 | after a delete no run registers, attaches or serves the identity again, even for a handler that passed the unlocked check before |
| Identities.DeleteIsFinal | internal/server/store_query.go:140-161 | the same from the start of the panel: no row, live machine or attached connection of a deleted identity in any later state |
| ServiceMonitors.Engine.AcquireSlot | internal/server/monitors.go:327-340 | takes a slot exactly when the monitor is not running and fewer than sixteen are in use |
| ServiceMonitors.Engine.Schedule | internal/server/monitors.go:372-407 | one pass gives every monitor its turn in order, starts the specified ones and forgets entries of unknown monitors |
| ServiceMonitors.Engine.ReleaseSlot | internal/server/monitors.go:342-347 | unmarks the monitor and frees one slot |
| ServiceMonitors.ReleaseUndoesAcquire | internal/server/monitors.go:327-347 | a release restores what the acquire found |
| ServiceMonitors.PassIsSchedule | internal/server/monitors.go:383-406 | a pass of the interleaved system that nothing interrupts does what the scheduler's loop does |
| ServiceMonitors.SlotsStayOk | internal/server/monitors.go:327-347 | every step keeps one slot per goroutine and one mark per running monitor |
| ServiceMonitors.SlotsAreAccountedFor | internal/server/monitors.go:323-347 | occupied slots are running checks plus half-done releases, at most 16; checks of a monitor never overlap; the receive never blocks |
| ServiceMonitors.ResultsAreCurrent | internal/server/monitors.go:409-441 | in every interleaving, restarts included, each stored result comes from a check of the monitor's current server, type and target |
| ServiceMonitors.StartsAreSpaced | internal/server/monitors.go:383-401 | two scheduled starts of one revision since the last restart are at least its interval apart, whatever the clock does |
| ServiceMonitors.StoredIffUntouched | internal/server/monitors.go:438-439 | the step that saves a check's result adds exactly that row and value if and only if nobody edited or removed the monitor since the row was read |
| ServiceMonitors.NothingElseStores | internal/server/monitors.go:409-441 | no other step adds a result, and only edits and removals of a monitor take its results away |
| ServiceMonitors.TurnMeans | internal/server/monitors.go:383-401 | in any run a turn starts a check if and only if the monitor is enabled and not running, a slot is free, and no start of this revision was less than its interval ago |
| ServiceMonitors.CreateMeans | internal/server/monitors.go:206-220 | below 200 monitors a new one gets an id that none has |
| ServiceMonitors.EditMeans | internal/server/monitors.go:227-243 | an edit raises the revision and keeps the results exactly when the same thing is checked |
| ServiceMonitors.RemoveMeans | internal/server/monitors.go:254-268 | a removed monitor takes its results with it |
| ServiceMonitors.ChecksMean | internal/server/monitors.go:452-476 | reading the table or a row, taking a slot, saving and releasing |
| ServiceMonitors.RevisionsDoNotReturn | internal/server/monitors.go:234-235 | a revision that has passed never comes back |
| AgentConnection.AgentConn.Register | internal/server/agentconn.go:141-146 | the next id, wrapping at 2^64, gets the entry |
| AgentConnection.AgentConn.Take | internal/server/agentconn.go:113-120 | an entry is taken exactly by a frame with its id and the awaited type |
| AgentConnection.StepKeepsInv | internal/server/agentconn.go:109-175 | every step of requesters and the reader keeps the invariant |
| AgentConnection.RepliesMatch | internal/server/agentconn.go:109-175 | in every interleaving a waiter receives only a reply with its own id and the type it asked for |
| AgentConnection.NoEntryOutlivesItsRequest | internal/server/agentconn.go:148-174 | in every interleaving no entry outlives its request, and each belongs to an unfinished request with its id and type |
| AgentConnection.NoReplyIsDropped | internal/server/agentconn.go:126-129 | in every interleaving the `default` in `resolve` never drops a matched reply |
| AgentConnection.TableIsBounded | internal/server/agentconn.go:134-137 | in every interleaving the table holds no more entries than there are requests in flight |
| AgentConnection.EntriesComeAndGo | internal/server/agentconn.go:138-175 | in every run each entry is on the table or was removed exactly once, if and only if no request took an id that was still on the table |
| AgentConnection.RequesterMeans | internal/server/agentconn.go:138-175 | asking, sending, giving up and forgetting, step by step |
| AgentConnection.FrameMeans | internal/server/agentconn.go:109-125 | a frame that answers nothing changes nothing; one that does goes to the request that asked |
| AgentConnection.ReplyReachesItsWaiter | internal/server/agentconn.go:109-164 | where everyone who waits has an entry, the reply to a waiting request is received by that request |
| AgentConnection.CollisionHarms | internal/server/agentconn.go:141-152 | after a request takes the id of an unfinished one, a continuation without further requests leaves somebody waiting without an entry |
| AgentConnection.AskIsHarmlessIff | internal/server/agentconn.go:141-146 | after a new request everyone can be answered, whatever happens until the next one, if and only if its id is not that of an unfinished request |
| AgentConnection.PromiseIffNoCollision | internal/server/agentconn.go:109-175 | throughout a run everyone who waits can be answered, whatever happens until the next request, if and only if no request takes the id of an unfinished one |
| AgentConnection.ConnectionPromises | internal/server/agentconn.go:109-175 | both exact conditions for every run of a connection from its start |
| AgentConnection.FewRequestsNeverCollide | internal/server/agentconn.go:141-146 | fewer than 2^64 requests on a connection never reuse the id of an unfinished one |
| AgentConnection.NoCollisionNoOverwrite | internal/server/agentconn.go:141-146 | avoiding the ids of unfinished requests is enough for every entry to be removed once |
| AgentConnection.ReusedIdStealsTheReply | internal/server/agentconn.go:142-145 | a concrete run of 2^64 requests after which a waiting request has lost its entry and another gets its reply |
| LoginSessions.SessionStore.IssueToken | internal/server/auth.go:48-84 | evicts only a session that expires first and only when full, sweeps the expired ones, and issues the token |
| LoginSessions.SessionStore.FindOldest | internal/server/auth.go:62-69 | finds a session that expires first |
| LoginSessions.SessionStore.SweepExpired | internal/server/auth.go:72-76 | removes exactly the expired sessions |
| LoginSessions.SessionStore.RevokeLocked | internal/server/auth.go:110-118 | removes the token and closes its channel, which is still open |
| LoginSessions.SessionStore.Valid | internal/server/auth.go:86-101 | answers whether the session is live and removes it when expired |
| LoginSessions.SessionStore.SessionDone | internal/server/auth.go:122-138 | returns the open channel of a live session |
| LoginSessions.SessionStore.Close | internal/server/auth.go:140-146 | empties the map and closes every channel |
| LoginSessions.SessionStore.Throttle | internal/server/auth.go:149-168 | admits or refuses as specified, sweeping only a full table |
| LoginSessions.IssueMeans | internal/server/auth.go:57-83 | a login leaves the new session for a week, and of the others exactly those neither evicted nor expired |
| LoginSessions.CheckMeans | internal/server/auth.go:86-101 | asking removes an expired session and changes nothing else |
| LoginSessions.WatchMeans | internal/server/auth.go:122-138 | a claimed session has its timer started, and an expired one is removed |
| LoginSessions.LoginSweepsTries | internal/server/auth.go:77-81 | a login leaves exactly the attempts of the last hour |
| LoginSessions.EvictionIsFair | internal/server/auth.go:62-71 | an unexpired session is evicted only when the store is full and nothing has expired |
| LoginSessions.HistoryKeepsSound | internal/server/auth.go:48-146 | in every history at most 256 sessions, and each channel is closed exactly when its session has left the map |
| LoginSessions.ClosedOnLeaving | internal/server/auth.go:110-118 | a channel closes in the very step in which its session leaves, and stays closed |
| LoginSessions.ValidMeansCurrent | internal/server/auth.go:48-138 | a session is valid exactly when its token was issued less than a week ago and not revoked or evicted since; sweeps and timers change no answer |
| LoginSessions.TableKnowsBusy | internal/server/auth.go:149-168 | the throttle's table knows exactly the addresses of the last second and holds at most 1024 |
| LoginSessions.AdmittedMeans | internal/server/auth.go:149-168 | an attempt is admitted exactly when its address had none admitted within the last second and fewer than 1024 addresses did, whatever was swept |
| LoginSessions.AttemptsAreSpaced | internal/server/auth.go:163-166 | two admitted attempts from one address are at least a second apart |
| SampleRing.Ring.Push | internal/server/hub.go:49-55 | the sample is appended to the history and overwrites the oldest |
| SampleRing.Ring.Snapshot | internal/server/hub.go:58-65 | the last min(n, 120) samples, in the order they arrived |
| SampleRing.Ring.Latest | internal/server/hub.go:67-72 | the last sample pushed, or none |

## Left out

- TrafficAccounting.TotalsLaw: readings carry times from 1970 on, because they are the panel's own clock.
- AlertRules.ReportsAsExpected: the clock is after 1970 and does not run back, because a stored 0 means "never"; the other alert lemmas do not need it where they do not say so.
- LoginSessions.ValidMeansCurrent: the clock does not run back, as Go's monotonic readings guarantee.
- LoginSessions.AdmittedMeans: the clock does not run back, for the same reason.
- TerminalRegistry.Registry.ReleaseSession: requires that callers release a token with its own machine, which both handlers do.
- FleetHub.Hub.PutMachine: requires that ids and identities come one to one, which `HubIsOneToOne` proves of its caller.
- AlertEngines.Engine.Evaluate: the rules whose transaction commits are an input; that a failed one leaves nothing behind is the database's promise.
- ServiceMonitors.StartsAreSpaced: says nothing across a restart, because the schedule is kept in memory only.
- ServiceMonitors.Engine.Schedule: the class method runs undisturbed; releases and edits in the middle of a pass are steps of the interleaved system instead.
- Editing a machine is one step here; the source reads, renames and updates the hub under its lock one after the other, around the database write, so a reading can fall in between. Pruning is one step too, while the source deletes 10000 rows at a time.
- Deleting a machine or a monitor also deletes its monitors and rules by foreign key; here that is several deletions.
- Quotas, percentages, speeds and the online flag of a machine: real-valued views of the same state.
- The sample queue and its writer, `Prune` of samples and results, history queries: batching and SQL.
- `observation`, `sendNotification`, the agent's collectors, pings and shells: arbitrary outcomes here.
- Copying frames between browser and agent, the idle timer, and the login that bounds a terminal's life: the bridge ends at any time.
- HTTP routing and validation of request bodies, JSON, WebSocket frames, TLS, cookies, GitHub login, logging.
- The agent program, the web interface, installers and scripts.
