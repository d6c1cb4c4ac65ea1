# Community lifecycle manager of the data-union server, in Dafny

This project models the part of the data-union server that decides which
community contracts the server operates. `CommunityProductServer` keeps a
registry of communities keyed by contract address. An entry is either
*launching*, with the time the event was detected, or *running*, with an
operator handle and a join/part stream id. A missing entry means the
server does not own that address.

The server reacts to `OperatorChanged` events from the chain. Depending on
the entry and on whether the new operator is this server's wallet, it
does one of five things:
- launches an operator,
- ignores the event,
- absorbs it as abuse while a launch is in progress,
- ignores a repeat,
- hands the community over by shutting its operator down and deleting
  the entry.

A second table holds one single-flight promise per address, which
`communityIsRunning` hands out. On `start()` the server first replays the
historical events that name its wallet, in order, and only then subscribes
to live events. The HTTP read side maps a requested address to a status:
400, 404, 503, or a pass to the community's routes. It also builds a
summary of all communities.

Modules:

- `Basics`: `Option` and `Result`.
- `Hex`: `hexZeroPad` as ethers v5 defines it, ASCII `toLowerCase`, and the
  numeric value of a hex string.
- `Registry`: the values the manager keeps and exchanges: entries, operator
  handles, promise states, log filters, and the calls it makes on
  collaborators. It also holds the operator configuration, the store path
  and the two filters. An operator handle carries an `id`: the number of
  `MonoplasmaOperator` objects constructed before it (`new
  MonoplasmaOperator`, src/server.js:207). Two operators of one contract
  differ only in it, so the model tells them apart as object identity
  does in the code.
- `Lifecycle`: the manager's behaviour as functions on a `State` value. The
  event handler is cut at its three `await` points into `OnOperatorRead`,
  `FinishLaunch` and `FinishShutdown`. `HandleEvent` runs them back to
  back. `ReplayLogs`, `Replay` and `StartServer` model the replay and
  `start()`.
- `Interleaving`: handlers that overlap at their `await` points, as a step
  system. It proves the invariant that keeps one launch per address in
  flight, and holds the finding below.
- `Server`: the class `CommunityProductServer`. The registry and the promise
  table are `map` fields that its methods update in place.
  - `CommunityIsRunning`, `OnOperatorRead`, `StartOperating`, `FinishLaunch`,
    `OnOperatorChangedEventAt`, `PlaybackPastOperatorChangedEvents` and
    `Start` are each proved to leave the object in the state that the
    matching `Lifecycle` function computes from the state before the call.
  - `FinishShutdown` is proved to match the corrected
    `Interleaving.FinishShutdownGuarded` instead (see Findings).
  - `OnLiveEvent` and `Stop` are specified directly: the handler's state on
    a canonical address, and an unchanged state.
  - The constructor yields `Lifecycle.InitState()`.
- `Routers`: `parseDataunionState` and `getSummary` over a registry snapshot.

Calls the manager makes on collaborators are recorded in a ghost trace, so
that "called once" and "called before" can be stated. These are
`getLogs`, the live subscription, `operator.start` and `operator.shutdown`.

The chain, the collaborators and the clock are parameters:

- `Env` carries one event's answers:
  - the `operator()` read and the re-read inside `startOperating`;
  - the outcome of building the channel, the store and the operator;
  - whether `shutdown()` succeeds;
  - `Date.now()`.
- `World` carries a replay's answers. Its `answers` function gives one `Env`
  per position in the fetched list, so the chain may answer differently for
  each log, including two logs of one contract. It also carries `getLogs`
  and `getAddress`.
- `getAddress` is a partial function `canon`.
- The `OperatorChanged` topic hash is the constructor argument
  `eventTopic`.

The doc comment of `communityIsRunning` (src/server.js:145-147) promises a
handle that "resolves when community is successfully started, or fails if
starting fails". The model follows the code, which keeps one handle per
address for good:

- Promise handles are never removed. A relaunch after a handover therefore
  gets the first launch's already settled promise back, not a new one
  (`Lifecycle.RelaunchKeepsFirstPromise`).
- The abuse test is `!community.operator || !community.operator.contract`.
  A running entry whose operator has not attached its contract object is
  treated like a launching one (`Registry.HasAttachedOperator`).

## Model

| member | source | states |
|---|---|---|
| Hex.HexValue | src/server.js:70 | n hex digits denote a value below 16^n |
| Hex.HexZeroPad | src/server.js:70 | ethers v5's hexZeroPad refuses a non-hex string and one longer than 2·length+2. Otherwise the result is exactly 2·length+2 characters: "0x", zero digits, then the input's digits unchanged, with the same numeric value |
| Hex.ZeroPrefixKeepsValue | src/server.js:70 | prefixing zero digits keeps a hex number's value |
| Hex.LowerKeepsHexValue | src/server.js:70 | lower-casing hex digits yields lower-case hex digits with the same value |
| Registry.OperatorConfigFor | src/server.js:206 | the operator's config has the base keys plus contractAddress; contractAddress is the community, and every other key keeps the base value |
| Registry.StorePath | src/server.js:187 | the store path is the store directory, "/", then the address |
| Registry.StorePathInjective | src/server.js:187 | distinct communities never share a store directory |
| Registry.ReplayTopic | src/server.js:70 | the padded topic exists exactly when the wallet address is a hex string of at most 66 characters |
| Registry.ReplayTopicShape | src/server.js:70 | for a 20-byte address the topic is "0x", 24 zeros and the 40 address digits, all lower-case hex. It has the address's value, which fits in 20 bytes, and its low 40 digits give back the lower-cased address |
| Registry.ReplayTopicDeterminesAddress | src/server.js:70 | two wallets share a replay topic only if their addresses agree up to case |
| Registry.ReplayFilter | src/server.js:67-71 | the history query runs from block 1 to "latest", with topics [OperatorChanged, padded lower-case wallet] |
| Registry.FilterScopes | src/server.js:50-71 | the live filter accepts every OperatorChanged log. The replay filter accepts exactly the logs that name this wallet |
| Lifecycle.CommunityIsRunning | src/server.js:149-161 | adds a pending handle only for an absent address, changes no other handle, and returns the stored handle |
| Lifecycle.CommunityIsRunningIdempotent | src/server.js:149-161 | asking twice is the same as asking once |
| Lifecycle.OnOperatorRead | src/server.js:105-141 | the decision table, each branch as an if-and-only-if. Launch writes the launching entry and the promise before suspending. Ignore, abuse and repeat change nothing. Handover calls shutdown on the running operator |
| Lifecycle.StartOperatingResult | src/server.js:193-218 | succeeds iff the re-read operator is us and setup succeeds. Another operator gives NotForUs. On success the entry is running at the address, with the overridden config, the store path, the channel's stream id and a newly constructed operator (the given id) |
| Lifecycle.StartOperating | src/server.js:193-218 | operator.start is called exactly when the re-check passes and channel and store exist; exactly then one more operator is constructed, and the running entry carries it. The registry is written only on success |
| Lifecycle.SettleAt | src/server.js:119-121 | only the address's promise is settled, and a settled promise keeps its first value |
| Lifecycle.FinishLaunch | src/server.js:117-122 | the promise is settled with the running entry or the error, and every other promise keeps its value. On success the running entry is written at the address. On error the registry is unchanged, leaving the entry launching |
| Lifecycle.FinishShutdown | src/server.js:139-140 | as written: after a successful shutdown the address's entry is removed, whatever it holds by then |
| Lifecycle.HandleEvent | src/server.js:103-142 | a failed read changes nothing. A failed shutdown keeps the registry. The promise table only grows |
| Lifecycle.HandleEventAppendsHandlerCalls | src/server.js:103-142 | a handler only appends operator start and shutdown calls to the trace |
| Lifecycle.ForeignAssignmentIgnored | src/server.js:108-125 | an event naming another operator for an unowned address changes neither table |
| Lifecycle.LaunchingEntryAbsorbsEvents | src/server.js:127-132 | an entry without an attached operator absorbs every event, with no state change and no start or shutdown |
| Lifecycle.FailedLaunchBlocksAddress | src/server.js:108-132 | a failed start leaves the entry launching and the promise rejected. A later "become self" event is absorbed |
| Lifecycle.SuccessfulLaunch | src/server.js:107-122 | a successful launch calls operator.start once, stores the running entry and resolves the promise with it |
| Lifecycle.SuccessfulHandover | src/server.js:138-140 | a handover calls shutdown once on the running operator, then deletes only that address's entry and leaves the promises alone |
| Lifecycle.HandoverCompleteness | src/server.js:103-142 | "self" then "someone else" starts one operator and shuts that same one down once. The address ends unowned and every other entry is kept |
| Lifecycle.RelaunchKeepsFirstPromise | src/server.js:149-161 | after launch, handover and a failed relaunch, the address is launching and communityIsRunning still answers the first settled value |
| Lifecycle.ReplayLogsAppend | src/server.js:78-95 | logs are replayed in list order, and none after a failing one is handled |
| Lifecycle.ReplayLogsIssuesOnlyHandlerCalls | src/server.js:78-95 | replay only appends operator start and shutdown calls and leaves no task suspended |
| Lifecycle.ReplayOfForeignLogs | src/server.js:78-95 | replaying logs of contracts that now name another operator changes nothing |
| Lifecycle.InitState | src/server.js:39-42 | no contract; see Interleaving.InitSatisfiesInv and the constructor |
| Lifecycle.ReplayOne | src/server.js:79-94 | no contract; see ReplayOneIssuesOnlyHandlerCalls, ReplayOneLaunches, ReplayOneHandsOver |
| Lifecycle.ReplayOneLaunches | src/server.js:79-94 | a replayed log that reads us as operator of an unowned address launches it as a live event would: one operator.start, and the running entry stored |
| Lifecycle.ReplayOneHandsOver | src/server.js:79-94 | a replayed log that reads another operator for a running address shuts that operator down and deletes the entry, as a live event would |
| Lifecycle.ReplayLogs | src/server.js:78-95 | no contract; see ReplayLogsAppend, ReplayLogsIssuesOnlyHandlerCalls, ReplayOfForeignLogs, ReplayOfChangingOperator |
| Lifecycle.Replay | src/server.js:65-96 | no contract; see StartReplaysBeforeSubscribing, ReplayOfSupersededAssignment and the class's PlaybackPastOperatorChangedEvents |
| Lifecycle.StartServer | src/server.js:47-58 | no contract; see StartReplaysBeforeSubscribing and the class's Start |
| Registry.LiveFilter | src/server.js:50 | no contract; see FilterScopes |
| Registry.HasAttachedOperator | src/server.js:127 | no contract; see LaunchingEntryAbsorbsEvents and OnOperatorRead |
| Lifecycle.ReplayOfChangingOperator | src/server.js:78-95 | the chain may change during a replay: two logs of one contract, read as self and then as someone else, launch and then hand over. The registry ends as it was, with one start and one shutdown of that operator |
| Lifecycle.StartReplaysBeforeSubscribing | src/server.js:47-58 | start() fetches history first. It subscribes exactly when the replay completed, once, as its last call, to the unrestricted live filter |
| Lifecycle.ReplayOfSupersededAssignment | src/server.js:65-96 | a history "self, then someone else" leaves the address unowned, because the replay reads the current operator |
| Interleaving.FinishShutdownGuarded | src/server.js:139-140 | corrected delete: removes the entry only if it still runs the very operator object (same id) that was shut down |
| Interleaving.GuardHoldsWhenSequential | src/server.js:138-140 | in a handler run without interleaving, the guarded and unguarded deletes coincide |
| Interleaving.InitSatisfiesInv | src/server.js:39-42 | the empty tables satisfy the invariant |
| Interleaving.EventReadPreservesInv | src/server.js:105-141 | the handler's first segment keeps one launch per address, each with a launching entry and a promise |
| Interleaving.StartSettledPreservesInv | src/server.js:117-122 | settling a launch keeps the invariant |
| Interleaving.ShutdownSettledGuardedPreservesInv | src/server.js:139-140 | the guarded delete keeps the invariant |
| Interleaving.ApplyGuardedPreservesInv | src/server.js:103-142 | with the guarded delete, every enabled segment keeps the invariant |
| Interleaving.RunGuardedPreservesInv | src/server.js:103-142 | with the guarded delete, every schedule of segments keeps the invariant |
| Interleaving.AtMostOneStartInFlight | src/server.js:107-118 | with the guarded delete, under every schedule at most one startOperating per address is in flight, and only while its entry is launching |
| Interleaving.RelaunchSurvivesEarlierShutdown | src/server.js:117-140 | a launch that settles while an earlier handover still awaits shutdown stores a newly constructed operator (a new id), so that handover's guarded delete keeps it |
| Interleaving.ConcurrentLaunchStartsOnce | src/server.js:107-132 | two overlapping "become self" events: the first launches and the second is absorbed. operator.start is called once |
| Interleaving.AsWrittenDoubleHandoverStartsTwice | src/server.js:138-140 | with the unguarded delete, one schedule ends with two startOperating in flight for one address and two shutdown calls on one operator |
| Interleaving.GuardedDoubleHandoverStartsOnce | src/server.js:138-140 | with the guarded delete, the same schedule keeps a single launch in flight |
| Server.CommunityProductServer.constructor | src/server.js:31-45 | an absent operator config becomes {}. Both tables start empty, with no subscription and no operator constructed yet |
| Server.CommunityProductServer.CommunityIsRunning | src/server.js:149-161 | the new tables and the answer are those of Lifecycle.CommunityIsRunning |
| Server.CommunityProductServer.OnOperatorRead | src/server.js:105-141 | the new state and branch are those of Lifecycle.OnOperatorRead |
| Server.CommunityProductServer.StartOperating | src/server.js:193-218 | the new state and result are those of Lifecycle.StartOperating |
| Server.CommunityProductServer.FinishLaunch | src/server.js:117-122 | the new state is that of Lifecycle.FinishLaunch |
| Server.CommunityProductServer.FinishShutdown | src/server.js:139-140 | the new state is that of the corrected Interleaving.FinishShutdownGuarded |
| Server.CommunityProductServer.OnOperatorChangedEventAt | src/server.js:103-142 | the new state and result are those of Lifecycle.HandleEvent, so its lemmas hold of the object |
| Server.CommunityProductServer.OnLiveEvent | src/server.js:50-57 | a live log whose address getAddress rejects changes nothing. Otherwise the handler runs, and its failure is dropped |
| Server.CommunityProductServer.PlaybackPastOperatorChangedEvents | src/server.js:65-96 | the loop leaves the state and result of Lifecycle.Replay, stopping at the first failing log |
| Server.CommunityProductServer.Start | src/server.js:47-58 | the state and result are those of Lifecycle.StartServer. The live filter is set exactly when the replay succeeded |
| Server.CommunityProductServer.Stop | src/server.js:60-63 | drops the live subscription and changes nothing else |
| Routers.ParseDataunionState | src/routers/server.js:13-37 | exactly one outcome: 400 iff getAddress rejects, with the raw input in the message. 404 iff there is no entry. 503 iff launching, echoing the entry. Pass-through iff running, with the operator's stream id |
| Routers.LaunchInFlightIs503 | src/routers/server.js:28-32 | while a launch of the address is in flight, its requests get 503 |
| Routers.PassThroughMatchesEntry | src/routers/server.js:34-36 | in every invariant state, a request passes through with the entry's own stream id and an operator for that contract |
| Routers.StatusAfterEvent | src/routers/server.js:23-36 | after a successful launch the address passes through with the new stream id. After a failed one it is 503, and after a handover 404 |
| Routers.StateName | src/routers/server.js:57 | the state string is "launching" exactly for launching entries and "running" exactly for running ones |
| Routers.GetSummary | src/routers/server.js:39-60 | one record per registry address plus the config. A launching entry gets zero stats and no stream. A running entry gets its stats and the operator's stream id. Each record carries the entry's state |
| Routers.SummaryAgreesWithStatus | src/routers/server.js:45-57 | an address is listed iff its requests are not 404. A listed community shows a stream iff its requests pass through, and it is the same stream |

## Left out

- Server.CommunityProductServer.FinishShutdown: models the corrected delete (see Findings), not line 140 as written. The as-written delete is `Lifecycle.FinishShutdown`. Sequentially the two coincide (`Interleaving.GuardHoldsWhenSequential`).
- Even with the guarded delete, two overlapping handovers both call `shutdown()` on the same operator. The model records this (`Interleaving.AsWrittenDoubleHandoverStartsTwice` counts the calls) but does not correct it.
- Events are not parsed. `operatorChangedInterface.parseLog` (lines 51, 79) and its possible failure belong to ethers.
- The log and error callbacks and every log message are left out: they change no state.
- The constructor's `throwIfNotSet` checks are left out. The check module is not part of this model, so the wallet and store directory are taken as given.
- `Date.now()` is the `now` field of `Env`. During a replay it is the `now` of the log's position in `World.answers`. Keccak-based `id()` is the constructor argument `eventTopic`. The EIP-55 `getAddress` is the partial function `canon`. Inside the handler the address is taken as already canonical.
- `MonoplasmaOperator`, `StreamrChannel`, `FileStore` and `getStream` are left out except for their outcomes (`SetupOutcome`). The join/part stream id is the one the setup reports.
- The JavaScript promise objects and their waiters are reduced to their settlement state. `setRunning` on an address without a handle is a no-op here; in the code it cannot happen, since handles are never removed.
- Lifecycle.FinishLaunch: the promise returned by `communityIsRunning` at line 116 is discarded. When `setFailed` (line 121) rejects it, that rejection goes unhandled, which depending on the Node.js version prints a warning or ends the process. The model does not capture this and lets the server carry on.
- The microtask between `startOperating` returning (line 216) and the promise settlement (line 119) is not a separate step. `FinishLaunch` does both at once.
- The event emitter's delivery order is not modelled. Live events are method calls in any order, or steps of `Interleaving.Run`.
- `Hex.HexZeroPad` follows ethers v5, which refuses a value longer than the target length. ethers v4 returns such a value unchanged. The difference is unreachable here: a 42-character wallet address always fits in 32 bytes.
- `toLowerCase` is modelled on ASCII letters only, which is all a hex string contains.
- `dataunionRouter.getStats` is an opaque function returning the member counts and total earnings. Other fields it may return are not modelled.
- The Express wiring (`router.use`, `router.get`) and the per-community routes are left out.
- The diagnostic script is left out, being all I/O.

## Findings

| source | as written | input that shows it | evidently intended | confidence | as-written member | corrected member |
|---|---|---|---|---|---|---|
| src/server.js:139-140 | after `await community.operator.shutdown()`, `delete this.communities[address]` removes whatever entry the address holds by then | `Interleaving.DoubleHandoverSchedule`, on a running community: two "someone else" events both await shutdown; the first settles and deletes; a "self" event relaunches; the second settles and deletes the launching entry; a further "self" event launches again, so two startOperating are in flight | remove only the entry whose operator was shut down, so that one launch per address stays in flight | medium; not executed | Interleaving.AsWrittenDoubleHandoverStartsTwice | Interleaving.FinishShutdownGuarded |
