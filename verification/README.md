# Remote Disk Health Monitor: a verified model

Remote Disk Health Monitor is an agent daemon, which watches the disks of a machine, and a Qt monitor, which
shows the health of many agents. This project models four parts of it and proves what they are for.

**The agent's publication protocol** (`Publication*.dfy`, `Aggregation.dfy`). HTTP workers, one drain thread per
SSE client and the background refresher share probe caches, a status snapshot and per-client queues under six kinds
of mutex and two kinds of condition variable. `Publication` is a step system: a thread has a program counter, and
one step takes a mutex, makes one access under it, or gives it back. A run is any interleaving, spurious wake-ups
and timeouts included. A probe's refresh may throw: in a manual refresh the guards unwind and the HTTP library answers
500, anywhere else the process ends. The history (`published`, `delivered`, `requests`, `covered`, `reported`,
`unreported`, `thrown`) is part of the state and read by no step. What each kind of thread leaves alone is in
`PublicationFrames`; the invariants are in `PublicationLocks`, `PublicationStreams`, `PublicationStatus` and
`PublicationProgress`, the results over all runs in `PublicationTheorems`, what a refresh pass does from its start to
its end in `PublicationPasses`, the life of a client from its registration to its death in `PublicationClients`, the
length of lock scopes, the way to the next pass and the end of the refresher in `PublicationScopes` and
`PublicationLiveness`, and the run in which a failed refresh leaves the status behind in `PublicationFailure`. The
loops that run under `g_probeMutex` are methods over an array of probe entries in `Aggregation`.

**The monitor's connection protocol** (`Agents`, `Provider`, `AgentsList`, `Monitor*.dfy`). `AgentsStatusProvider`
and `AgentsList` are classes that update their tables in place; each method is proved against a function of the old
state, and `MonitorApp` proves that the two objects, wired as in the monitor's `main`, do what the composed machine
`Monitor` does. Time is discrete and may not pass a due watchdog tick or timer; pending one-shot timers are a
multiset; events may come at any time, also late and for agents no longer observed; the watchdog visits connections
in any order. A view that only replays model signals runs alongside; `MonitorView` says what each step does to its rows,
to the connections and to the timers, in every state that keeps the joint invariant, and so in every reachable one.

**Text and byte codecs** (`Text`, `SmartCtl`, `SmartCtlTable`, `NvmeSection`, `Lsblk`, `LsblkOutput`, `KernelLog`,
`ShellQuote`, `Base64`, `Configuration`, `Wmi`). Parser loops are methods proved against functions, and the
functions are related to renderers: round trips for any layout the printing tool may choose, with numbers that do not
fit and lines the parser skips among them, an accumulating reader that equals one batch parse, where a partition is
filed and whom its errors count for, and shell quoting against a reader of shell words.
`Text` has the C++ library's lines, words and number reading with its integer limits.

**Health verdicts** (`Health.dfy`). The early-return loop over SMART attributes and the two levels of worst-of
folding are maxima over severities, and `SmartHealth.TableBadExactly` and `TableSuspiciousExactly` give the verdict by
name, identifier and number; the publication protocol publishes that aggregate, and `LinuxHealth.dfy` says for
which kernel-log lines and SMART attributes it is bad. An NVMe drive whose spare is used up is not flagged by its spare
attribute: the threshold layer ignores a value of 0 (`NvmeHealth.UsedUpSpareIsGood`).

Modelled types: `Health` is ordered by severity; `None` stands for an exception or an absent optional; times are
milliseconds; identifiers and ports wrap at their width where the program casts. Every lemma carries
`{:induction false}`, so that no proof rests on an induction hypothesis it does not state.

Where code and documentation disagree, the model follows the code. `LinGeneralAnalyzer.cpp:135-138` says that a disk
with an error stays BAD for the life of the process; `LinGeneralAnalyzer.BadCanBeForgotten` gives a run in which it
does not, and `LinGeneralAnalyzer.StaysBadExactly` says exactly when it does. The status the agent serves is meant to
be that of its probe caches; after an exception in a manual refresh it need not be
(`PublicationFailure.HugeValueLeavesStatusBehind`), and `PublicationTheorems.StatusMatchesCaches` says exactly when it
is. `NvmeParser.SeparatorDecides` says which locale's digit grouping the NVMe parser understands. Two more properties
hold under an exact condition: `ShellQuote.QuotingWorksExactly` (no NUL in the value) and `Lsblk.MatchUniqueExactly`
(no disk name continues another ambiguously). `NvmeParser.GroupedValueParses` likewise gives both sides of the 64-bit limit.

## Model

| member | source | states |
|---|---|---|
| `PublicationTheorems.EveryClientGetsEveryEvent` | src/agent/HttpServer.cpp:76-96 | in every interleaving of all threads, what a live client was given followed by its queue is exactly what was published since it registered, in order, without loss or duplicate; only the clients behind the cursor of a push under way lack its event, and just that one; a dead client got a prefix; at most 16 clients are listed, every live one among them |
| `PublicationTheorems.HistoryOnlyGrows` | src/agent/HttpServer.cpp:204-218 | over any run, events published and events given to a client are never taken back or reordered, and a client registers once |
| `PublicationTheorems.StatusMatchesCaches` | src/agent/main.cpp:134-168 | whenever g_probeMutex is free after start-up, the stored status has a time and is the aggregate of the probe entries as the last completed publication found them; it is the aggregate of the present entries if and only if every entry written since, which only a pass that threw can leave behind, answers for every disk as it did then; so it is whenever no refresh has thrown since |
| `PublicationTheorems.StreamsEndWithStatus` | src/agent/HttpServer.cpp:234-256 | whenever g_probeMutex is free after start-up, each live client's stream is empty or ends with the stored status, and is not empty once its on-connect callback has finished |
| `PublicationFailure.FailedRefreshLeavesStatusBehind` | src/agent/main.cpp:123-132 | for any disks and any two answers of the first probe that differ: a run in which a manual refresh throws in the second probe and leaves a stored status that is not the aggregate of the caches, with no mutex held and no cooldown running |
| `PublicationFailure.HugeValueLeavesStatusBehind` | src/agent/HttpServer.cpp:153-168 | the same with the two probes of the Linux agent: smartctl prints 2^63, the parse throws, the kernel log has a disk bad, and the stored status does not |
| `PublicationTheorems.NoDeadlock` | src/agent/main.cpp:179-181 | no reachable state has a circular wait among the six kinds of mutex, and while the process lives, whenever a thread is blocked on a mutex some owner of a mutex can step |
| `PublicationTheorems.NoLostWakeUp` | src/agent/HttpServer.cpp:88-93 | while the process lives, a drain thread asleep on a non-empty queue is always about to be notified, by a thread that holds its mutex and can step |
| `PublicationTheorems.EveryRequestGetsItsPass` | src/agent/main.cpp:170-177 | after a background-refresh request, made at any moment of any run, and until a stale-probe pass begins, the request flag is up or the refresher is on its way to the pass, and it does not sleep on the flag without a thread about to notify it |
| `PublicationTheorems.RefresherApproachesPass` | src/agent/main.cpp:272-292 | while a request is pending and the agent runs, every step of the refresher strictly reduces its distance to the next pass, and no other thread's step increases it |
| `PublicationTheorems.PassComesWithinBound` | src/agent/main.cpp:272-292 | in any run in which the agent keeps running, the refresher takes only a bounded number of steps between a pending request and its pass, however the other threads interleave |
| `PublicationScopes.ScopesEnd` | src/agent/main.cpp:237-292 | each step of a thread that holds a mutex brings it nearer to holding none, and no step of anyone else takes it further away |
| `PublicationScopes.ScopesAreBounded` | src/agent/HttpServer.cpp:76-96 | in any run a thread takes only a bounded number of steps before it holds no mutex |
| `PublicationLiveness.PassIsPossible` | src/agent/main.cpp:272-292 | from every reachable state of a running agent with a refresh requested, some continuation begins a stale-probe pass, with steps of the refresher, of owners of mutexes, and the expiry of the refresher's wait only |
| `PublicationLiveness.OwnerPays` | src/agent/main.cpp:179-181 | when an owner of a mutex runs, the steps all owners together still have to make fall |
| `PublicationPasses.NothingStaleBehind` | src/agent/main.cpp:98-132 | in every reachable state, every entry behind the loop variable of a pass is up to date: in a background pass none of positive interval is still due, at start-up no proactive one, and in a manual refresh each has the time of the pass |
| `PublicationPasses.PassRefreshesExactly` | src/agent/main.cpp:98-132 | over any run of a pass that ends without an exception, exactly the entries that were to be refreshed when it read the clock (all in a manual refresh, the due ones in the background, the due proactive ones at start-up) hold what their probes answered and the time of the pass, and all others are untouched; one event with the aggregate of those entries is published, or nothing at all if and only if a background pass found nothing due |
| `PublicationPasses.BackgroundPassLeavesNothingDue` | src/agent/main.cpp:285-290 | when a background pass has ended, no entry of positive interval is left that was due at its start |
| `PublicationPasses.FailedPassStopsThere` | src/agent/main.cpp:123-132 | a manual refresh that throws has refreshed the entries before that of the throwing probe, which keeps its time and what was collected; later entries are untouched and nothing is published |
| `PublicationPasses.ConnectPublishesCaches` | src/agent/main.cpp:245-251 | a client that connects makes the agent publish the aggregate of its caches, which it leaves as they are, and then ask for a background pass |
| `PublicationClients.LetInExactly` | src/agent/HttpServer.cpp:179-193 | a new client is refused if and only if sixteen clients are alive; otherwise it joins them with an empty stream, no other client changes, and the list holds exactly the live clients |
| `PublicationClients.ConnectingLetsIn` | src/agent/HttpServer.cpp:176-193 | from any reachable state in which sseMutex is free, GET /api/v1/events lets the client in if and only if fewer than sixteen are alive |
| `PublicationClients.PostingRefreshes` | src/agent/HttpServer.cpp:153-168 | from any reachable state in which refreshMutex is free, POST /api/v1/refresh begins a refresh if and only if no completed one was let in during the last ten minutes |
| `PublicationClients.StopSignalStops` | src/agent/main.cpp:30-35 | a signal to stop makes the agent stop, whoever holds what |
| `PublicationClients.DrainGoesOn` | src/agent/HttpServer.cpp:204-218 | while its connection stands, every step of a client's drain thread brings its next event of the history nearer or gives it out, and no step of anyone else takes it further away |
| `PublicationClients.EventComesWithinFiveSteps` | src/agent/HttpServer.cpp:204-218 | in any run, five steps of its drain thread give a client with an undelivered event the next event of the history, unless the connection ends |
| `PublicationClients.LiveClientIsServed` | src/agent/HttpServer.cpp:196-222 | every client that counts as alive has a thread that serves it; one whose connection was found closed is dead |
| `PublicationClients.StopKillsAllClients` | src/agent/HttpServer.cpp:265-277 | when stop() has gone through its list, no client let in so far is alive, and the agent is stopping |
| `PublicationClients.ListenReturnedMeansStopping` | src/agent/main.cpp:295-299 | once listen() has returned, the agent is stopping |
| `PublicationScopes.StoppedRefresherEnds` | src/agent/main.cpp:272-292 | once the agent is stopping, the refresher takes only a bounded number of steps in any run until it is done |
| `PublicationScopes.NoStepsLeft` | src/agent/main.cpp:272-292 | a refresher with none of these steps left has finished |
| `PublicationTheorems.ManualRefreshesAreSpaced` | src/agent/HttpServer.cpp:153-173 | in every run the manual refreshes carried out to the end are pairwise at least ten minutes apart per refresh in between; one that throws is not counted, and sets no cooldown |
| `PublicationTheorems.AdmittedExactly` | src/agent/HttpServer.cpp:155-168 | a manual refresh is carried out if and only if none that completed was let in during the last ten minutes |
| `PublicationTheorems.CompletedRefreshCounts` | src/agent/HttpServer.cpp:164-166 | a manual refresh that was carried out counts from the moment it was let in |
| `PublicationTheorems.ReachableInv` | src/agent/main.cpp:237-292 | the joint invariant (roles, lock ownership, streams, status, wake-ups, requests, cooldown) holds after every run from every start |
| `PublicationLocks.LocksKept` | src/agent/main.cpp:237-258 | every step keeps: each held mutex has one owner, and the owner is the one thread whose program counter lies in its scope |
| `PublicationLocks.LocksRise` | src/agent/main.cpp:179-181 | a thread holding a mutex only ever waits for one of strictly higher rank (refreshMutex, g_probeMutex, dataMutex, sseMutex, client mutex), and g_bgMutex is only taken alone |
| `PublicationLocks.NoCircularWait` | src/agent/main.cpp:179-181 | along any chain of waiting threads the rank of what is waited for rises, so no chain closes |
| `PublicationLocks.BlockedThreadHasRunnableHolder` | src/agent/main.cpp:179-181 | from any blocked thread the chain of lock owners ends in one that can step |
| `PublicationStreams.StreamsKept` | src/agent/HttpServer.cpp:176-224 | every step of every thread (push, registration, sweep of dead clients, drain, release, stop) keeps the stream invariant of listed and dropped clients |
| `PublicationStatus.StatusKept` | src/agent/main.cpp:134-168 | every step, a refresh that throws included, keeps: outside the scope of g_probeMutex the stored status is what was published last, it was made from the entries last reported, and only entries known as unreported differ from those |
| `PublicationProgress.WakeUpsKept` | src/agent/HttpServer.cpp:204-217 | every step keeps: a sleeping drain thread has an empty queue or a pusher about to notify it |
| `PublicationProgress.RequestsKept` | src/agent/main.cpp:272-292 | every step keeps: an uncovered request has its flag up or the refresher on its way to the pass |
| `PublicationProgress.CooldownKept` | src/agent/HttpServer.cpp:157-167 | every step keeps the manual refreshes spaced, and the last of them is the recorded time |
| `Aggregation.PublishFromCache` | src/agent/main.cpp:134-168 | the nested loops produce the pure aggregate: for each disk, in order, the status of each probe, in order, and the worst of them; overall, the worst over disks |
| `Aggregation.OverallIsMaximum` | src/agent/main.cpp:141-167 | overall health is at most some severity if and only if every probe's answer for every disk is |
| `Aggregation.DiskHealthIsMaximum` | src/agent/main.cpp:141-159 | a disk's health is at most some severity if and only if every probe's answer for it is |
| `Aggregation.DiskHealthExactly` | src/agent/DiscStatusCalculator.cpp:12-25 | a disk is bad if some probe has found it bad, else to be checked if some probe has, else good if some probe has, else unknown |
| `Aggregation.OverallExactly` | src/agent/main.cpp:161-167 | overall health is that over all disks |
| `Aggregation.ReportShowsAnswers` | src/agent/main.cpp:141-159 | the report lists the disks in order and under each the answer of every probe in order, unknown where it has none |
| `Aggregation.SameAggregateExactly` | src/agent/main.cpp:141-167 | two states of the probe entries give the same report if and only if each entry answers alike for every disk |
| `Aggregation.RefreshStaleProbes` | src/agent/main.cpp:98-121 | up to the first refresh that throws, exactly the due entries get new data and the time of the pass; the one that throws keeps what it collected and its old time, later ones are untouched; without a throw the result tells whether any was due, and no entry with a positive interval is due afterwards |
| `Aggregation.RefreshAllProbes` | src/agent/main.cpp:123-132 | up to the first refresh that throws, every entry gets new data and the time of the pass; the one that throws keeps what it collected and its old time, later ones are untouched |
| `Health.CalculateCumulativeStatus` | src/agent/DiscStatusCalculator.cpp:12-25 | the result is an upper bound of all statuses and one of them (unknown for none) |
| `Health.WorstOfIsMaximum` | src/agent/DiscStatusCalculator.cpp:12-25 | the fold is the least upper bound of the severities |
| `Health.WorstOfDependsOnElements` | src/agent/DiscStatusCalculator.cpp:12-25 | the fold does not depend on order or repetition |
| `Health.WorstOfMonotone` | src/agent/DiscStatusCalculator.cpp:12-25 | adding statuses never improves the result |
| `SmartHealth.SmartHealthAnalyzer.Refresh` | src/agent/SmartHealthAnalyzer.cpp:69-76 | the caches take the readings of the disks before the first unreadable one and keep everything else |
| `SmartHealth.SmartHealthAnalyzer.GetStatus` | src/agent/SmartHealthAnalyzer.cpp:94-144 | the early-return loop gives the worst verdict of any single attribute, whatever the vendor profile; unknown without a reading |
| `SmartHealth.TableBadExactly` | src/agent/SmartHealthAnalyzer.cpp:107-127 | a table is bad if and only if an attribute has a positive value not above its threshold, is one of the two critical NVMe fields and above zero, or is an NVMe wear of 100 % or more |
| `SmartHealth.TableSuspiciousExactly` | src/agent/SmartHealthAnalyzer.cpp:113-140 | a table that is not bad is to be checked if and only if one of the five critical ATA attributes, by identifier and name, is above zero, an NVMe wear has reached 90 %, or a value exceeds its threshold by at most max(1, 15 % of it); otherwise it is good |
| `SmartHealth.SmartHealthAnalyzer.Judge` | src/agent/SmartHealthAnalyzer.cpp:105-141 | one turn of the loop, whatever the vendor profile, raises the verdict to that of the attribute by itself |
| `SmartHealth.CriticalIsUnmasked` | src/agent/VendorProfile.h:21-61 | no vendor profile changes the raw value of a critical attribute |
| `SmartHealth.TableVerdictIsWorstAttribute` | src/agent/SmartHealthAnalyzer.cpp:103-143 | the verdict is at most a severity if and only if every attribute's own verdict is |
| `SmartHealth.TableVerdictMonotone` | src/agent/SmartHealthAnalyzer.cpp:103-143 | more attributes never improve the verdict, and order and repetition do not matter |
| `LinuxHealth.OverallBadExactly` | src/agent/main.cpp:141-167 | with the two probes of the Linux agent, the published overall health is bad if and only if, for some disk, a kernel-log line since the last fallback reports it or an attribute of its cached table proves it bad |
| `LinuxHealth.DiskBadExactly` | src/agent/main.cpp:146-155 | the same for the health of one disk |
| `LinuxHealth.LinuxReport` | src/agent/main.cpp:134-168 | publishing from the two probe objects gives an overall health that is bad exactly for the evidence they hold |
| `StatusProviderObject.AgentsStatusProvider.Observe` | src/monitor/AgentsStatusProvider.cpp:39-60 | an unknown agent gets a fresh, subscribed connection and a Connecting signal; a known one is left alone |
| `StatusProviderObject.AgentsStatusProvider.Unobserve` | src/monitor/AgentsStatusProvider.cpp:63-73 | the agent is forgotten; its pending timers stay |
| `StatusProviderObject.AgentsStatusProvider.ConnectSse` | src/monitor/AgentsStatusProvider.cpp:150-164 | a known agent is subscribed now; the connected flag, event time and backoff stay |
| `StatusProviderObject.AgentsStatusProvider.HandleSseEvent` | src/monitor/AgentsStatusProvider.cpp:167-182 | a known agent's backoff is reset, it is connected as of now, and the Connected signal precedes the payload's; a late event of a forgotten agent changes nothing |
| `StatusProviderObject.AgentsStatusProvider.ScheduleSseReconnect` | src/monitor/AgentsStatusProvider.cpp:185-198 | one timer with the present delay joins the pending ones and the delay doubles up to 30 s |
| `StatusProviderObject.AgentsStatusProvider.CheckConnections` | src/monitor/AgentsStatusProvider.cpp:201-225 | each connection is checked once: those past 45 s without event, or past 30 s without a first one, are dropped, signalled and rescheduled |
| `StatusProviderObject.AgentsStatusProvider.ReconnectTimerFired` | src/monitor/AgentsStatusProvider.cpp:194-197 | the timer is used up and a still observed agent is subscribed again |
| `AgentsListObject.AgentsList.AddAgent` | src/monitor/AgentsList.cpp:27-50 | a new agent gets a row and is observed; an agent found again is promoted to hardcoded, never demoted; the model signals say exactly that |
| `AgentsListObject.AgentsList.RemoveAgent` | src/monitor/AgentsList.cpp:53-69 | a listed agent goes, unless a discovery loss names one the user added |
| `AgentsListObject.AgentsList.RemoveAgentAt` | src/monitor/AgentsList.cpp:72-88 | the row and all side-table entries of its agent go and it is no longer observed; a position out of range changes nothing |
| `AgentsListObject.AgentsList.Serve` | src/monitor/AgentsList.cpp:212-271 | a slot stores the value for a listed agent and reports the changed roles of its row; unlisted agents are ignored |
| `AgentsListObject.AgentsList.ServeSignals` | src/monitor/AgentsList.cpp:16-24 | the slots run for all emitted signals in order |
| `MonitorView.EventShows` | src/monitor/AgentsStatusProvider.cpp:76-106 | an event shows at once in the row of its agent: Connected, and the health, the disks with their names and the time of refresh where the event has them; every other role and every other row keeps its value |
| `MonitorView.LateEventShowsNowhere` | src/monitor/AgentsStatusProvider.cpp:167-171 | an event of an agent that is not listed changes nothing |
| `MonitorView.NewAgentShows` | src/monitor/AgentsList.cpp:27-40 | an agent not listed before gets the last row, connecting and with nothing known of it |
| `MonitorView.KnownAgentShows` | src/monitor/AgentsList.cpp:41-49 | a listed agent found again changes nothing but its source, from discovery to the user |
| `MonitorView.RemovedRowGoes` | src/monitor/AgentsList.cpp:72-88 | removing a row removes that row and the observation of its agent and nothing else |
| `MonitorView.LostAgentGoes` | src/monitor/AgentsList.cpp:53-69 | an agent lost by discovery goes like a removed one unless the user added it; then nothing changes |
| `MonitorView.LostStrangerIsIgnored` | src/monitor/AgentsList.cpp:53-57 | a loss of an agent that is not listed changes nothing |
| `MonitorView.TickGivesUpExactly` | src/monitor/AgentsStatusProvider.cpp:201-225 | a tick gives up exactly the connections silent for more than 45 s, or for more than 30 s after a subscription no event has answered: each gets one timer with its present delay and twice that delay, at most 30 s, for the next time; other connections and timers stay |
| `MonitorView.TickShows` | src/monitor/AgentsStatusProvider.cpp:217-221 | a tick shows exactly those agents as disconnected and changes nothing else that is shown |
| `MonitorView.TimerResubscribes` | src/monitor/AgentsStatusProvider.cpp:194-197 | a timer that fires subscribes its agent as of now if it is still observed, and shows nowhere |
| `MonitorView.EventConnects` | src/monitor/AgentsStatusProvider.cpp:175-177 | an event makes its connection connected as of now, with a delay of 1 s, and leaves all others and the timers alone |
| `MonitorView.RowsShowWhatWasHeard` | src/monitor/AgentsList.cpp:212-271 | after any run every row shows the last health, disks and time of refresh that its agent announced since it was listed, and its connection knows the time of the last event |
| `MonitorView.TimeGoesOn` | src/monitor/AgentsStatusProvider.cpp:29-36 | in every reachable state a due timer fires, a due tick comes, or time can pass |
| `MonitorView.TicksAreRegular` | src/monitor/AgentsStatusProvider.cpp:33-35 | the watchdog is due every 15 s from the start on and never overdue |
| `ListModel.AddFollowed` | src/monitor/AgentsList.cpp:27-50 | a view that replays the signals of an addition shows the rows after it |
| `ListModel.RemoveFollowed` | src/monitor/AgentsList.cpp:72-88 | a view that replays the removal signal shows the rows after it |
| `ListModel.SlotsFollowed` | src/monitor/AgentsList.cpp:212-271 | a view that replays the data-changed signals, copying only the named role, shows the rows after any sequence of slots |
| `MonitorTheorems.NoAgentIsAbandoned` | src/monitor/AgentsStatusProvider.cpp:150-225 | in every run of the composed monitor an observed agent is connected, or has a reconnect due within 30 s, or was subscribed at most 45 s ago |
| `MonitorTheorems.ResubscribesWithin75Seconds` | src/monitor/AgentsStatusProvider.cpp:150-225 | while no event has come since the last subscribe attempt, that attempt is at most 75 s old |
| `MonitorTheorems.BackoffFollowsHistory` | src/monitor/AgentsStatusProvider.cpp:185-225 | the next delay is min(1000 * 2^k, 30000) ms after k disconnects since the last event or the start of observation |
| `MonitorTheorems.AtMostThreePending` | src/monitor/AgentsStatusProvider.cpp:185-198 | no identity has more than three reconnects pending, across any unobserving and observing again |
| `MonitorTheorems.ListMirrorsProvider` | src/monitor/AgentsList.cpp:212-271 | the list is duplicate-free and lists exactly the observed agents; side tables name listed agents only; Connected is shown exactly for connected agents, whose last event is at most 60 s old |
| `MonitorTheorems.ViewShowsList` | src/monitor/AgentsList.cpp:27-88 | over every run, a view that only replays model signals shows the same rows as the list |
| `MonitorTheorems.HardcodedAgentsStay` | src/monitor/AgentsList.cpp:41-63 | no run of discoveries, losses, events and ticks removes or demotes an agent the user added |
| `MonitorTheorems.ReachableInv` | src/monitor/AgentsStatusProvider.cpp:39-225 | the joint invariant of timing, mirroring, view and backoff holds after every run, late events and any hash order included |
| `MonitorTiming.TimingKept` | src/monitor/AgentsStatusProvider.cpp:150-225 | every step keeps: each connection is connected and fresh, or covered by a timer, or recently subscribed; timers start at distinct watchdog ticks |
| `MonitorTiming.AtMostThreeTimers` | src/monitor/AgentsStatusProvider.cpp:185-198 | timers of one identity started at three ticks at most |
| `MonitorMirror.MirrorKept` | src/monitor/AgentsList.cpp:27-88 | every step keeps list, side tables and provider in agreement |
| `MonitorMirror.ViewKept` | src/monitor/AgentsList.cpp:27-88 | every step keeps the replayed view equal to the rows |
| `MonitorMirror.BackoffKept` | src/monitor/AgentsStatusProvider.cpp:175-198 | every step keeps the backoff equal to its closed form over the signal history |
| `MonitorApp.App.WatchdogTick` | src/monitor/AgentsStatusProvider.cpp:201-225 | the wired objects do on a tick what the composed machine does, signals delivered |
| `MonitorApp.App.ReconnectTimer` | src/monitor/AgentsStatusProvider.cpp:194-197 | the wired objects do on a timer what the composed machine does |
| `MonitorApp.App.SseEvent` | src/monitor/AgentsStatusProvider.cpp:167-182 | the wired objects do on an event what the composed machine does, signals delivered |
| `MonitorApp.App.AgentFound` | src/monitor/main.cpp:53-57 | the wired objects do on a discovery or manual addition what the composed machine does |
| `MonitorApp.App.AgentLost` | src/monitor/main.cpp:58 | the wired objects do on a loss what the composed machine does |
| `MonitorApp.App.RemoveRow` | src/monitor/AgentsList.cpp:72-88 | the wired objects do on a removal by the user what the composed machine does |
| `OutputParsersUtils.Clean` | src/agent/OutputParsersUtils.cpp:43-56 | the loops give the lines, each trimmed, without empty lines at either end |
| `OutputParsersUtils.CleanedExactly` | src/agent/OutputParsersUtils.cpp:29-39 | what is left is a run of the trimmed lines with nothing empty at its ends and nothing but empty lines outside it |
| `OutputParsersUtils.TrimWords` | src/agent/OutputParsersUtils.cpp:11-17 | trimming loses no word |
| `OutputParsersUtils.TrimPadded` | src/agent/OutputParsersUtils.cpp:11-17 | trimming removes exactly the blanks around a text |
| `Text.LinesOfUnlines` | src/agent/OutputParsersUtils.cpp:45-50 | reading line by line undoes writing line by line |
| `Text.LinesConcat` | src/agent/OutputParsersUtils.cpp:45-50 | texts joined on a line boundary have their lines joined |
| `Text.SplitByWhitespace` | src/agent/linux/LsblkOutputParser.cpp:23-33 | the extraction loop gives the maximal runs of non-blank characters |
| `Simplify.Simplify` | src/agent/linux/SmartCtlOutputParser.cpp:40-67 | the character loop gives the text with each run of blanks one space and none at the ends |
| `Simplify.SimplifiedKeepsWords` | src/agent/linux/SmartCtlOutputParser.cpp:40-67 | simplifying never changes the tokens |
| `Simplify.SimplifiedShape` | src/agent/linux/SmartCtlOutputParser.cpp:40-67 | no tab is left, no two spaces are next to each other, and none is at an end |
| `NvmeParser.ParseNvmeValue` | src/agent/linux/SmartCtlOutputParser.cpp:158-211 | the loop computes the signed, scanned number, or fails as std::stoll does |
| `NvmeParser.GroupedValueParses` | src/agent/linux/SmartCtlOutputParser.cpp:158-211 | digits in groups with single spaces between them, alone or before a percent sign, ` Celsius` or a bracketed note, parse to the number exactly when it is below 2^63, and make the parser throw otherwise |
| `NvmeParser.PrefacedValueParses` | src/agent/linux/SmartCtlOutputParser.cpp:178-211 | whatever without a digit or a bracket stands before a number, the number is read, negated if there is a minus sign in front of it |
| `NvmeParser.NoDigitsReadAsZero` | src/agent/linux/SmartCtlOutputParser.cpp:206-207 | a value without digits reads as 0 |
| `NvmeParser.SeparatorDecides` | src/agent/linux/SmartCtlOutputParser.cpp:179-201 | groups of digits with one and the same character between them read as the whole number if that is a space, and as the first group otherwise, so a comma loses the rest |
| `NvmeParser.OnlyFirstGroup` | src/agent/linux/SmartCtlOutputParser.cpp:179-201 | after a group of digits any character but a digit or a space ends the number, whatever follows |
| `NvmeParser.HexValueParses` | src/agent/linux/SmartCtlOutputParser.cpp:172-174 | hexadecimal text reads as its value exactly when that is below 2^63, and throws otherwise |
| `NvmeParser.DecimalParses` | src/agent/linux/SmartCtlOutputParser.cpp:158-211 | any split of the decimal digits of any n below 2^63 parses to n |
| `NvmeHealth.NvmeHealthEntries` | src/agent/linux/SmartCtlOutputParser.cpp:128-154 | the loops give the key and value of each line with a colon and a key, from the line after the first marker to an empty line |
| `NvmeHealth.ParseNvmeHealth` | src/agent/linux/SmartCtlOutputParser.cpp:213-274 | all entries become attributes numbered from 1; the first spare attribute takes the first spare threshold, if that is positive, and a later one is not looked at; one unreadable value fails the whole parse |
| `NvmeHealth.SpareIsBadExactly` | src/agent/linux/SmartCtlOutputParser.cpp:250-271 | through parser and analyzer, the spare attribute is bad if and only if some spare is left and it has sunk to the reported threshold, and then so is the drive; a spare of 0 is not flagged |
| `NvmeHealth.UsedUpSpareIsGood` | src/agent/SmartHealthAnalyzer.cpp:107-111 | an output with a spare of 0 %, a threshold of 10 % and 5 % wear gives the verdict good |
| `NvmeHealth.NvmeIsBadExactly` | src/agent/linux/SmartCtlOutputParser.cpp:213-274 | through parser and analyzer, an NVMe drive is bad if and only if its section has a critical warning or a media error above zero, a wear of at least 100 %, or a positive spare not above the spare threshold |
| `NvmeHealth.PatchedExactly` | src/agent/linux/SmartCtlOutputParser.cpp:250-271 | only the first spare attribute takes a threshold, that of the first spare threshold if it is positive |
| `NvmeHealth.ToInt32Wraps` | src/agent/linux/SmartCtlOutputParser.cpp:238 | the cast to int gives the congruent 32-bit value |
| `NvmeHealth.ContainsExactly` | src/agent/linux/SmartCtlOutputParser.cpp:118-126 | the marker is found wherever in a line it stands |
| `NvmeSection.SectionRoundTrip` | src/agent/linux/SmartCtlOutputParser.cpp:213-286 | a rendered health section, with any padding, lines without a key in it, and inside any text without an earlier marker, reads back entry by entry |
| `NvmeSection.NumberComesBack` | src/agent/linux/SmartCtlOutputParser.cpp:158-274 | an attribute read from a grouped number has that number, its position as identifier, its key with underscores as name, and a value and worst only if it is the spare |
| `NvmeSection.HugeValueThrows` | src/agent/linux/SmartCtlOutputParser.cpp:202-209 | one value of 2^63 or more, in any place of any rendered section, makes the whole parse throw |
| `SmartCtlOutputParser.SmartAttributes` | src/agent/linux/SmartCtlOutputParser.cpp:16-37 | the iterator loops give the lines after header and titles up to an empty one |
| `SmartCtlOutputParser.ParseRawTable` | src/agent/linux/SmartCtlOutputParser.cpp:79-114 | rows with ten columns and readable numbers become attributes, in order; others are skipped |
| `SmartCtlOutputParser.Parse` | src/agent/linux/SmartCtlOutputParser.cpp:277-286 | an output with an NVMe marker is read as NVMe, any other as an ATA table |
| `SmartCtlTable.TableRoundTrip` | src/agent/linux/SmartCtlOutputParser.cpp:16-114 | any list of ATA attributes, rendered with any blanks, zero padding, `---` for threshold 0 and raw values in decimal, hexadecimal or octal, inside any text without an earlier header or NVMe marker, reads back as the same list without the lines whose numbers do not fit or that have fewer than ten words |
| `SmartCtlTable.RowParses` | src/agent/linux/SmartCtlOutputParser.cpp:79-114 | one rendered row, whatever its layout and the notation of its raw value, reads back as its attribute with an 8-bit identifier, and is skipped if and only if a number does not fit |
| `SmartCtlTable.HexadecimalIsForm` | src/agent/linux/SmartCtlOutputParser.cpp:106 | every number has a hexadecimal notation, in either case of the letters, that the row may use |
| `Lsblk.Parse` | src/agent/linux/LsblkOutputParser.cpp:105-145 | the loop adds one row after the other: disks and RAID devices as entries, partitions to the first entry they match |
| `Lsblk.FindDisk` | src/agent/linux/LsblkOutputParser.cpp:130-132 | the search finds the first entry whose disk the partition matches |
| `Lsblk.PartitionsAreFiled` | src/agent/linux/LsblkOutputParser.cpp:105-145 | for every output, a partition is in at most one entry, the first one it matches, however often its row repeats; diskForPartition names that entry, and isPartition agrees with it |
| `Lsblk.ListedExactly` | src/agent/linux/LsblkOutputParser.cpp:124-139 | a partition is listed if and only if one of its rows comes below a device it matches |
| `Lsblk.EntriesAreDevices` | src/agent/linux/LsblkOutputParser.cpp:121-142 | the entries are the disks and RAID volumes of the listing, in its order, with their sizes and device numbers |
| `Lsblk.FiledExactly` | src/agent/linux/LsblkOutputParser.cpp:124-139 | a partition is in the entry of a device if and only if that is the first device of the listing whose partition it can be and a row of the partition comes below it |
| `Lsblk.MatchExactly` | src/agent/linux/LsblkOutputParser.cpp:73-87 | a partition of a disk is a name that continues the disk's with a digit, or with `p` and a digit |
| `Lsblk.MatchUniqueExactly` | src/agent/linux/LsblkOutputParser.cpp:73-87 | two different names can claim one partition if and only if one continues the other by a digit, by `p` alone, or by `p` and a digit |
| `Lsblk.OnlyMatch` | src/agent/linux/LsblkOutputParser.cpp:73-87 | without such names, every entry a filed partition matches has the name diskForPartition gives |
| `Lsblk.IsPartition` | src/agent/linux/LinuxDiskCollector.cpp:78-86 | true exactly if some entry lists the device |
| `Lsblk.DiskForPartition` | src/agent/linux/LinuxDiskCollector.cpp:89-97 | the name of the first entry that lists the device, or nothing |
| `LsblkOutput.ListingRoundTrip` | src/agent/linux/LsblkOutputParser.cpp:47-71 | any rendered listing of devices, whatever its blanks and other columns, reads back as those devices; empty lines above the header, lines of fewer than six words and rows with numbers that do not fit do not count |
| `LsblkOutput.RowParses` | src/agent/linux/LsblkOutputParser.cpp:47-71 | one rendered row reads back as its name, type, size and device numbers if and only if the numbers fit |
| `DmesgParser.PhysicalDeviceFor` | src/agent/linux/DmesgParser.cpp:17-27 | a device is charged to the first disk whose entry lists it, and to itself if none does |
| `DmesgParser.ChargedExactly` | src/agent/linux/DmesgParser.cpp:17-27 | the disk charged is that of the first entry listing the device, unless that has no name, and otherwise the device |
| `DmesgParser.Parse` | src/agent/linux/DmesgParser.cpp:31-54 | the nested loops insert each matching line for each disk it names |
| `DmesgParser.ParsedErrorsCollect` | src/agent/linux/DmesgParser.cpp:31-54 | the map has exactly the disks that lines report, each with exactly the set of those lines |
| `DmesgParser.CollectedMapIsUnique` | src/agent/linux/DmesgParser.cpp:31-54 | that description leaves no choice |
| `LinGeneralAnalyzer.MergeAll` | src/agent/linux/LinGeneralAnalyzer.cpp:139-140 | the merging loop gives the union per disk, in whatever order |
| `LinGeneralAnalyzer.LinGeneralAnalyzer.Refresh` | src/agent/linux/LinGeneralAnalyzer.cpp:113-147 | each refresh keeps the errors equal to what all readings so far leave: a successful journal reading is merged in, a fallback replaces them |
| `LinGeneralAnalyzer.LinGeneralAnalyzer.GetStatus` | src/agent/linux/LinGeneralAnalyzer.cpp:82-87 | after any refreshes, bad if and only if some line read since the last fallback reports the disk |
| `LinGeneralAnalyzer.RunEqualsBatch` | src/agent/linux/LinGeneralAnalyzer.cpp:113-147 | after any run of refreshes the errors equal one parse of the last fallback output and all journal outputs since, joined on line boundaries |
| `LinGeneralAnalyzer.BadExactly` | src/agent/linux/LinGeneralAnalyzer.cpp:82-147 | a disk is bad if and only if some line since the last fallback names a device that is charged to it |
| `LinGeneralAnalyzer.PartitionErrorIsDisks` | src/agent/linux/DmesgParser.cpp:17-23 | an error line of a partition since the last fallback makes the first disk that lists the partition bad |
| `LinGeneralAnalyzer.ListedPartitionErrorIsDisks` | src/agent/linux/DmesgParser.cpp:17-48 | in the terms of the listing: it makes the first device bad whose partition it can be, if the partition's row comes below that device's |
| `LinGeneralAnalyzer.BadStaysBad` | src/agent/linux/LinGeneralAnalyzer.cpp:133-141 | between fallbacks no error line is forgotten, so a bad disk stays bad |
| `LinGeneralAnalyzer.StaysBadExactly` | src/agent/linux/LinGeneralAnalyzer.cpp:142-146 | a reading keeps a bad disk bad if and only if it is a journal reading or reports the disk again |
| `LinGeneralAnalyzer.BadCanBeForgotten` | src/agent/linux/LinGeneralAnalyzer.cpp:135-145 | after any readings, an error read from the journal is forgotten by a fallback with empty output, against the comment that it stays for the life of the process |
| `LinGeneralAnalyzer.ErrorOnSdaIsForgotten` | src/agent/linux/LinGeneralAnalyzer.cpp:135-145 | the same for a file-system error line of the kernel, whose device the third error pattern captures |
| `ShellQuote.ShellQuote` | src/agent/linux/LinGeneralAnalyzer.cpp:30-42 | the loop wraps the value in single quotes and rewrites each inner one |
| `ShellQuote.QuotedIsOneWord` | src/agent/linux/LinGeneralAnalyzer.cpp:30-42 | under sections 2.2.1 and 2.2.2 of the POSIX.1-2017 Shell Command Language, the quoted text, alone or behind plain text, is one word with that value |
| `ShellQuote.QuotingWorksExactly` | src/agent/linux/LinGeneralAnalyzer.cpp:49-55 | through the C string given to popen this holds if and only if the value has no NUL |
| `ShellQuote.NulLeavesQuoteOpen` | src/agent/linux/LinGeneralAnalyzer.cpp:49-55 | a NUL in the value leaves the quote open |
| `ShellQuote.JournalArguments` | src/agent/linux/LinGeneralAnalyzer.cpp:115-117 | whatever the path, the shell sees the six intended arguments, one of them the option with the path |
| `Base64.DecodeEncode` | src/monitor/Configuration.cpp:14 | decoding undoes the encoding of section 4 of RFC 4648 on all byte strings |
| `Base64.EncodedHasNoSeparator` | src/monitor/Configuration.cpp:14 | encoded names hold no separator of the settings format |
| `Base64.DecodeBase64` | src/monitor/Configuration.cpp:43 | the shifting decoder skips what is not in the alphabet and keeps the rest |
| `Base64.WholeGroupsEncode` | src/monitor/Configuration.cpp:14 | each three bytes become the four characters whose values in Table 1 of RFC 4648 hold the same 24 bits |
| `Base64.EndEncodes` | src/monitor/Configuration.cpp:14 | one or two bytes at the end become two or three characters, filled up with zero bits, and padding |
| `Configuration.AgentToString` | src/monitor/Configuration.cpp:11-23 | the four fields joined by commas |
| `Configuration.AgentsToString` | src/monitor/Configuration.cpp:25-33 | the agents' texts joined by semicolons |
| `Configuration.StringToAgents` | src/monitor/Configuration.cpp:54-68 | the parts that have four fields, as agents, in order |
| `Configuration.AgentRoundTrip` | src/monitor/Configuration.cpp:11-52 | any agent with a separator-free host is read back as it was written |
| `Configuration.AgentsRoundTrip` | src/monitor/Configuration.cpp:11-68 | any list of such agents, the empty one included, is read back as it was stored, whatever the names |
| `Configuration.NumberReads` | src/monitor/Configuration.cpp:20-46 | a printed number reads back as itself if it fits into 32 bits, and as 0 otherwise |
| `Configuration.NonNumberReadsAsZero` | src/monitor/Configuration.cpp:45-46 | a text with anything but digits, signs and blanks reads as 0 |
| `Configuration.FourFieldsRead` | src/monitor/Configuration.cpp:37-52 | any four fields read as an agent with the port cut to 16 bits and the source of that code, 0 for discovery and 1 for the user |
| `Configuration.JunkIsSkipped` | src/monitor/Configuration.cpp:54-68 | agents are read back whatever stands between them; parts that have not exactly three commas are skipped |
| `Persistence.StoreHardcodedAgents` | src/monitor/main.cpp:19-29 | what is stored is the text of the agents the user added, in row order |
| `Persistence.RestoreHardcodedAgents` | src/monitor/main.cpp:31-37 | each stored agent is found again, in order |
| `Persistence.HardcodedOfShape` | src/monitor/main.cpp:19-29 | the stored agents are exactly the hardcoded ones, each once |
| `Persistence.HardcodedInOrder` | src/monitor/main.cpp:19-29 | the stored agents are in row order |
| `Persistence.HardcodedAgentsComeBack` | src/monitor/main.cpp:19-37 | after any run, storing and restoring at the next start lists the same hardcoded agents in the same order and nothing else |
| `Wmi.WMICommunication.FeedSmartDataStructure` | src/agent/windows/WMICommunication.cpp:299-323 | the attributes of all whole chunks are appended, in order; a shorter rest is ignored |
| `Wmi.ReadRaw` | src/agent/windows/WMICommunication.cpp:307-309 | the shifting loop reads six bytes, lowest first |
| `Wmi.FeedUndoesEncode` | src/agent/windows/WMICommunication.cpp:299-323 | feeding an encoded blob gives back identifiers, values, worsts and raw values below 2^48, whatever the unread bytes |
| `Wmi.WMICommunication.FeedThresholds` | src/agent/windows/WMICommunication.cpp:413-431 | each attribute takes the threshold of the last chunk with its identifier, if any; nothing else changes |
| `Wmi.ReadThresholds` | src/agent/windows/WMICommunication.cpp:418-424 | the map loop keeps, for each non-zero identifier, its last threshold |
| `Wmi.ThresholdsJoin` | src/agent/windows/WMICommunication.cpp:413-431 | against an encoded list of thresholds: the last entry with the attribute's non-zero identifier wins, without one the attribute is unchanged, and no other field ever changes |
| `Wmi.TableRoundTrip` | src/agent/windows/WMICommunication.cpp:299-431 | a table with distinct non-zero identifiers comes through the two blobs whole |

## Left out

- Sockets, HTTP and JSON libraries, mDNS, Qt networking, COM and WMI calls, `popen`, `/sys` reads: foreign calls. The model has "an event arrives", "a subscription succeeds", "the command printed this text"; `collected` is what a probe would answer.
- `PublicationTheorems.NoLostWakeUp`: speaks of pushed events only. `HttpServer::stop()` and the content releaser set `alive` without the client's mutex, so a drain thread may miss a shutdown and no guarantee exists to prove.
- `PublicationTheorems.EveryRequestGetsItsPass`: a safety statement. That every lock scope ends within a bound (`PublicationScopes.ScopesAreBounded`), that the refresher's own steps to the pass are bounded (`PassComesWithinBound`), and that the pass stays possible from every state (`PublicationLiveness.PassIsPossible`) is proved; that the scheduler and the mutexes are fair enough to let it happen is not modelled.
- `PublicationTheorems.StatusMatchesCaches`: the exceptions modelled are those of a probe's refresh. That `nlohmann::json::dump` throws on text that is not UTF-8, and that memory may run out, is not modelled; serialising a status is taken to succeed.
- The bodies of HTTP answers, the `refreshed` flag of POST /api/v1/refresh among them; status codes appear only as the place where a handler ends.
- Signal handlers: `stop()` on a signal is modelled as a thread of its own; what a handler may do while it interrupts a thread that holds `sseMutex` is not modelled.
- The second `stop()` in `~HttpServer`, joining threads, and the end of `main`.
- Probe freshness is stated in terms of the recorded `lastRefresh`, which starts at the clock's epoch; that a probe was really refreshed before is not implied.
- `AgentsStatusProvider::fetchAgentInfo` and the protocol-mismatch signal; they change no modelled state. Parsing a status event is an input of the model (`Payload`): the fields that parse.
- Clock jitter: watchdog and one-shot timers fire exactly when due.
- `buildSummary`, `parseTestStatus`, `GetRawData` and other display data: easy members. A probe's raw data is an opaque string.
- `GET /api/v1/info`, `/disks`, `/disks/:name`: read-only handlers like `/status`.
- The regular expressions of `DmesgParser`: the model takes the devices they capture in a line as a function that finds none in an empty line.
- `DmesgParser.Parse`: disks are compared by device name, as `Disk::operator<` does; the order of lines inside a set is not modelled.
- `NUL` bytes in the output of commands, which `fgets` and `+=` would cut off line by line.
- `SmartHealth.SmartHealthAnalyzer.GetStatus`: integers are unbounded, so the 32-bit overflow of `threshold * 15` for thresholds above 143 million is not modelled.
- `Configuration.AgentsRoundTrip`: host text is assumed to survive `QHostAddress` and to hold no `,` or `;`; names are their UTF-8 bytes; QSettings is assumed to give back what it was given. Blanks that `QString::toInt` skips are the ASCII ones.
- `Wmi.WMICommunication.FeedThresholds`: requires the size passed with the blob not to exceed it; beyond that the program reads out of bounds. `FeedSmartDataStructure` ignores its size argument, and its `int` index is unbounded here.
- `SmartData::GetCanonicalName`, `formatBytes`, `detectVendor`, `detectDriveType`, `ManualAgentsValidator`, vendor masks alone: tables, floating point, or easy.
- `Lsblk.Parse`: messages printed to `std::cerr` are not modelled.
- QML, the tray icon, packaging and build files.
