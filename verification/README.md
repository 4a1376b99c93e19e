# Wig: replication, gateways, sessions and address allocation in Dafny

Wig is a WireGuard control plane. A primary datastore takes writes and keeps them
in a sequential log. Other datastores and the gateways follow that log
asynchronously, and datastores pass it on, so that nodes form trees. This project
models that protocol, the SQL state under it, the gateway that turns the log into
WireGuard devices, the detection of peer sessions, and the allocation of peer
addresses. It proves what holds in every run.

`dafny verify dfyconfig.toml` checks everything.

## Modules

| module | what it holds |
|---|---|
| Tables | interfaces, peers and tokens with their keys; SQL statements; replay of a history |
| LogStore | one datastore's tables, log table and counter; every transaction as a function |
| Snapshots | listings of a database, loading them, and the log tail after them |
| Cluster, ClusterSteps, ClusterRuns, ClusterProgress, ClusterExamples | the protocol as a transition system, its invariant, step by step and over runs; that delivery goes on and ends |
| PubSub, Datastore, Following | the publisher, the datastore and the follow loop as objects and loops |
| Gateway, GatewayRefinement, GatewayNode, GatewayOrder, GatewayRestart | the gateway's state, its refinement of the database, the object, the order of a snapshot, devices that outlive the process |
| EndToEnd | datastore trees and gateways together |
| Sessions, SessionOrder, SessionManager | edge detection on handshake reports, the order of a dump, and the object that stores sessions |
| IPRange, AddressBits, Registration | big-endian increment, the address generator, the bits of an address, first-fit search |
| Wire | what survives serialization: values, operations, error codes |

## How the main results fit

`TreeReplication` is the centre. Start all nodes of any tree from the same base.
Then in every interleaving of accepted and refused writes, sends to single
subscribers, commits, commits that fail before anybody has the operation, pumps,
deliveries, lost connections and new subscriptions, every node's log is a prefix of its parent's, its tables are the replay of that
prefix, every open stream holds exactly what its follower lacks, and no follower
ever needs a snapshot or fails to apply. A transaction emits before it commits,
so a follower may be one operation ahead of what its source has committed; the
invariant says so explicitly.

`StepKeepsInvIff` is the general form. Followers may change source and load
snapshots, and commits may fail. It says for every step exactly when the
invariant survives. `GatewayRefinesIff` does the same for the gateway: it shows
the database throughout a log if and only if every operation is one it can
carry. `GatewaysServe` joins the two: in every run of a tree with gateways at its
leaves, reconnected, closed, killed and restarted at will, every gateway shows
what the datastores at its number hold, beside the devices it found when it
started and whose interfaces the log has not yet created again. Once it is back
where it had been, there are none of these.

`NeverStuck`, `DeliveryEnds`, `CanAgree` and `FleetCanAgree` are the other half:
while a transaction is open or something is on its way, some step of delivery can
be taken; delivery alone always ends; and from every state that can be reached,
delivering and connecting leads to a state in which every datastore has the
database of the primary and every gateway shows it.

Several properties one would expect are false of the code as it stands. Each is
kept as it is, with an input that breaks it, the exact condition, or both:

- A commit that fails after Emit leaves followers with a row the source never had
  (`AbortIff`, `EmitBeforeCommitDiverges`).
- Subscribe serves a gap when the source has no log below a snapshot
  (`PreloadExactIff`, `SubscribeIff`, `SnapshotSourceServesGap`).
- A node that loads a snapshot while others follow it leaves them ahead of it, or
  behind with a gap if the snapshot is higher (`LoadSnapshotIff`,
  `SnapshotRewindsUnderSubscriber`).
- A snapshot fails to load when the registry lists peers before interfaces
  (`LoadRestoresIff`, `TakeSnapshot`).
- A follower that is ahead, and loads a snapshot, trips over its own old log
  entries (`DeliverOutcome`, `AheadOutcome`, `AheadFollowerBlocked`,
  `RewoundFollowerBlocked`). No later attempt gets it past such an entry unless
  it takes a snapshot at or above it (`BlockedStaysBlocked`, `BlockedForEver`).
- Clearing all tables never returns (`DeleteAllReturnsIff`).
- A gateway stops at every interface update, loses a peer that moves, and crashes
  on a peer whose interface went first (`InterfaceUpdateStops`, `MovedPeerLost`,
  `StaleIndexCrashes`, `PeerOutcomeIff`). Moving a peer whose key cannot be read
  puts the zero key on its old device (`PeerRefusedLeaves`). Peers of one interface with the same key under different
  texts overwrite and remove one another (`PeerCreateFollowsIff`,
  `PeerUpdateFollowsIff`, `PeerDeleteFollowsIff`), and the order of a snapshot
  decides which one stays (`LoadOrderBlindIff`).
- A gateway whose load fails keeps the devices it has made, which depend on the
  order of the snapshot (`CleanOrderBlindIff`), and the next load does not remove
  them (`LoadIff`, `LoadForgetsIff`). A gateway that is killed leaves all its
  devices, and shows interfaces that are not there until the log has created
  them again (`KeptShowsIff`).
- Closing a subscription twice panics at the next Emit (`PanicsIff`).
- A stored address with host bits makes the generator leave its network
  (`StaysInNetworkIff`, `YieldsHostsIff`).
- Sessions of a peer can touch (`ClockBackTouches`, `ApartIff`). This takes no
  faulty clock: the time is read before the transaction begins
  (datastore/sessions/manager.go:39), so two calls that overlap can be analysed
  with the later time first.
- The order of a dump can change the sessions it completes and the begin of the
  session it opens (`DumpOrderChangesSessions`, `DumpOrderChangesBegin`,
  `DumpOrderIff`).
- A value stored under a name that another type has taken over comes back as a
  value of that type, and acts on another table (`KeptIff`, `StoredLogKeptIff`).

Where the code cannot mean what it says, the model takes the intended meaning:
clearing all tables empties them, and enumerating a table returns all its rows
although the query is built with an empty WHERE clause. `wig init` writes a token
outside the log, so replay is always relative to a base that all nodes share.

Parameters stand for the outside: the base64 key parser, the row order of a
snapshot, what a stream delivers before it ends, how many inserts a transaction
takes and whether it commits, and the clock.

## Model

| member | source | states |
|---|---|---|
| Tables.RowsAfter | datastore/crud/sql_table.go:47-60 | which rows exist after a create, update or delete, row by row: no-ops on missing rows, and cascades |
| Tables.RefusedExactly | datastore/migrations.go:14-33 | an operation is refused if and only if it would break a primary or foreign key, or has no type, each with its own error |
| Tables.StatementsKeepIntegrity | datastore/migrations.go:23-33 | every accepted statement keeps keys in place and each peer's interface present |
| Tables.ReplayKeepsIntegrity | datastore/crudlog/log.go:22-33 | every state a history passes through has its keys intact |
| LogStore.SinceContents | datastore/crudlog/sql.go:23-43 | the log query returns exactly the rows from the start number on |
| LogStore.SinceIncreasing | datastore/crudlog/sql.go:23-43 | and returns them in increasing order |
| LogStore.AcceptedIff | datastore/crudlog/log.go:22-68 | an operation is accepted if and only if the tables do not refuse it, by their keys, and its number is not in the log; with which error otherwise |
| LogStore.AcceptedEffect | datastore/crudlog/log.go:41-68 | the rows, the log, the counter and the emitted operation after an accepted one, row by row |
| LogStore.PrimaryAcceptsIff | datastore/crudlog/log.go:41-68 | a write at the primary is accepted if and only if the tables do not refuse it |
| LogStore.PreloadExactIff | datastore/crudlog/log.go:131-153 | a preload is exactly the missing slice of the history if and only if the source log covers it and holds nothing above its counter |
| LogStore.FollowerApply | datastore/crudlog/log.go:41-68 | a follower at a point of the history applies and logs the next operation under its number, unless that number is already in its log |
| LogStore.WriteKeepsPrimaryLog | datastore/crudlog/log.go:41-68 | an accepted write appends one numbered entry, and tables, log and counter stay in step |
| LogStore.PrimaryLogInvariant | datastore/crudlog/log.go:41-68 | after any run of writes the log is exactly those not refused in their turn, numbered 1..counter in order, and the tables are its fold over the base |
| LogStore.DeliverOutcome | datastore/crudlog/follow.go:47-60 | delivering a stretch of the history to a store at its start: the whole final tables, log and counter, stopped before the first number already in its log, and only there |
| LogStore.DeliverStopsIff | datastore/crudlog/follow.go:47-60 | whatever arrives, delivery stops at the first refused operation, with its number and error and the store before it |
| Snapshots.LoadRestoresIff | datastore/crudlog/log.go:77-89 | loading a listing restores the database if and only if every peer follows its interface; otherwise a foreign key refuses it |
| Snapshots.LoadItemsIff | datastore/crudlog/log.go:77-89 | loading any list works if and only if no item has an unknown type, a key listed before or an interface not listed before, and gives exactly the listed rows |
| Snapshots.LoadError | datastore/crudlog/log.go:77-89 | otherwise the first such item decides the error |
| Snapshots.SnapshotPlusTail | datastore/crudlog/follow.go:22-39 | after a snapshot, the tail of the log gives the full replay, or stops exactly at the first number the sink had logged above the snapshot |
| ClusterSteps.WriteKeeps | datastore/crudlog/log.go:41-68 | opening a write at the primary extends the history by one numbered operation and keeps the invariant |
| ClusterSteps.WriteEnabledIff | datastore/crudlog/log.go:41-68 | a write can begin, or is refused, if and only if none is open and the tables do not refuse it, or do |
| ClusterSteps.ChannelRoom | datastore/crudlog/log.go:16-16 | a channel takes exactly 1000 operations |
| ClusterSteps.SendKeeps | datastore/crudlog/pubsub.go:38-52 | sending to one subscriber moves the operation from pending to its channel and keeps every stream exact |
| ClusterSteps.CommitKeeps | datastore/sqlite/sqlite.go:85-95 | committing once all subscribers are served keeps the invariant |
| ClusterSteps.AbortIff | datastore/crudlog/log.go:41-68 | a failed commit keeps the invariant if and only if nobody has seen the operation |
| ClusterSteps.SubscribeIff | datastore/crudlog/log.go:131-153 | subscribing keeps the invariant if and only if the source log covers the missing part, or the caller is ahead |
| ClusterSteps.PumpKeeps | datastore/crudlog/log.go:162-173 | the pump keeps preload before live, and neither loses nor repeats |
| ClusterSteps.NextInLine | datastore/crudlog/follow.go:47-60 | what arrives is always the next operation of the history |
| ClusterSteps.ReceiveKeeps | datastore/crudlog/follow.go:47-60 | applying a received operation logs it, re-emits it to the follower's own subscribers and keeps the invariant |
| ClusterSteps.FollowerEnabledIff | datastore/crudlog/follow.go:14-61 | when a received operation is taken or refused, a commit can fail, a connection can be lost, and a snapshot can be taken and loaded |
| ClusterSteps.LeaveKeeps | datastore/crudlog/follow.go:43-60 | losing a connection with operations in flight keeps the invariant |
| ClusterSteps.TakeSnapshotKeeps | datastore/crudlog/log.go:97-110 | a snapshot's items and number describe the same prefix of the history |
| ClusterSteps.LoadSnapshotIff | datastore/crudlog/log.go:77-89 | loading a snapshot keeps the invariant if and only if it does not move the counter under the node's own subscribers |
| ClusterSteps.StepKeepsInvIff | datastore/crudlog/log.go:41-173 | every step of the protocol keeps the invariant if and only if it is sound |
| ClusterRuns.SoundRunKeepsInv | datastore/crudlog/follow.go:12-74 | the invariant over whole runs with changing sources and snapshots, as long as each step is sound |
| ClusterRuns.LinkNeverPastHorizon | datastore/crudlog/follow.go:14-42 | in any sound run, a follower that keeps to one source is never ahead of it and never takes a snapshot, as long as that source neither loads one nor fails a commit |
| ClusterRuns.TreeStepSound | datastore/crudlog/follow.go:14-42 | on a tree, no follower is past the horizon, every preload is covered, and every received operation applies |
| ClusterRuns.TreeAbortIff | datastore/crudlog/log.go:41-68 | on a tree, a failed commit does no harm if and only if nobody has seen the operation and no child has it from before |
| ClusterRuns.TreeIsReplicated | datastore/crudlog/log.go:41-68 | logs are prefixes of the parent's, tables are replays, equal numbers mean equal databases |
| ClusterRuns.TreeStreamsExact | datastore/crudlog/log.go:131-173 | what a follower has emitted plus what is under way is what its source has emitted; nothing under way means equal databases |
| ClusterRuns.TreeReplication | datastore/crudlog/follow.go:12-74 | replication safety in every run of every tree, with commits that fail where that does no harm, and that no run needs a snapshot or fails to apply |
| ClusterProgress.NeverStuck | datastore/crudlog/log.go:131-173 | on a tree, while a transaction is open or something is on its way, some step of delivery can be taken, however full the channels are |
| ClusterProgress.DeliveryEnds | datastore/crudlog/log.go:131-173 | a run of delivery alone is never longer than the work there is |
| ClusterProgress.CanAgree | README.md:18-25 | from every state a tree can reach, delivering and connecting leads to one in which every node has the primary's database with all that was written |
| ClusterExamples.EmitBeforeCommitDiverges | datastore/crudlog/log.go:41-68 | a run from the start after which a follower holds a row the primary never had |
| ClusterExamples.SnapshotSourceServesGap | datastore/crudlog/log.go:131-153 | a run from the start after which a follower of a node that loaded a snapshot is stuck below it with nothing under way |
| ClusterExamples.SnapshotRewindsUnderSubscriber | datastore/crudlog/log.go:77-89 | a run from the start after which a node has loaded a snapshot below its own subscriber |
| ClusterExamples.RewoundFollowerBlocked | datastore/crudlog/follow.go:47-60 | that run goes on: the node subscribes to the primary, refuses the first operation and is where it was |
| PubSub.PanicsIff | datastore/crudlog/pubsub.go:30-52 | a run panics on a double close if and only if an Emit comes after some channel was closed twice; in well-formed runs there is no other panic |
| PubSub.RunTracksCloses | datastore/crudlog/pubsub.go:38-46 | every removed channel is closed by the next Emit, once, and only those removed since wait |
| PubSub.SubscribedIff | datastore/crudlog/pubsub.go:20-36 | a channel is live if and only if it was added and not closed; live ones are neither closed nor waiting to be |
| PubSub.InboxExact | datastore/crudlog/pubsub.go:20-52 | a channel receives exactly the operations emitted between its subscription and its close |
| PubSub.NewestFirst | datastore/crudlog/pubsub.go:20-28 | channels are served from the newest to the oldest |
| PubSub.Publisher.AddSubscriber | datastore/crudlog/pubsub.go:20-28 | the new channel goes in front, nothing else changes |
| PubSub.Publisher.RemoveSubscriber | datastore/crudlog/pubsub.go:30-36 | the channel leaves the list and waits to be closed, also when it had left before |
| PubSub.Publisher.Emit | datastore/crudlog/pubsub.go:38-52 | closes what waits, then sends to every subscriber once; when it panics |
| Datastore.Database.Apply | datastore/crudlog/log.go:41-68 | accepted if and only if the keys and the log's numbers allow it, no channel was closed twice and the commit succeeds; then rows, log, counter and one emit, which keeps every open stream exact; refused with nothing changed or emitted; or emitted and then rolled back by a failing commit; when it panics |
| Datastore.Database.LoadSnapshot | datastore/crudlog/log.go:77-89 | tables and counter of the snapshot with the log kept, or all unchanged |
| Datastore.Database.Each | datastore/crud/sql_table.go:75-95 | every row of one table exactly once |
| Datastore.Database.TakeSnapshot | datastore/crudlog/log.go:97-110 | a listing of the database with its counter, loadable if and only if interfaces were enumerated before peers or there are no peers |
| Datastore.Database.QueryLogSince | datastore/crudlog/sql.go:23-43 | the loop builds exactly the ordered query result |
| Datastore.Database.Subscribe | datastore/crudlog/log.go:131-153 | horizon error if and only if the caller is ahead; else a fresh channel and a preload that start an exact stream of the log |
| Datastore.Database.Unsubscribe | datastore/crudlog/log.go:175-177 | the channel is removed, the database unchanged, whether or not it was subscribed |
| Following.ApplyStream | datastore/crudlog/follow.go:47-60 | applies what arrives until the first failure |
| Following.DoFollow | datastore/crudlog/follow.go:12-61 | at most one snapshot, taken if and only if the sink starts ahead; final state and outcome for every error of the source or the sink and for cancellation |
| Following.PastHorizonIff | datastore/crudlog/follow.go:19-24 | a subscription is past the horizon if and only if the source says so or the sink is ahead of it |
| Following.Follow | datastore/crudlog/follow.go:63-74 | restarts after each ended stream, stops at the first error |
| Following.FollowErrors | datastore/crudlog/follow.go:12-61 | which error of the source or the sink one attempt ends with, and what the sink then holds |
| Following.FollowEnds | datastore/crudlog/follow.go:63-74 | the loop ends in the first round whose stream does not end by itself, with that round's outcome and sink |
| Following.FollowOneSource | datastore/crudlog/follow.go:12-74 | following one source that never goes back: never past the horizon, never fails, goes on until cancelled, and stands exactly where what has arrived in all rounds takes it |
| Following.FollowCatchesUp | datastore/crudlog/follow.go:63-74 | once a round brings all that is sent, the follower has everything its source has, whatever was lost before |
| Following.NeverPastHorizon | datastore/crudlog/follow.go:14-42 | following one source that never goes back, with holes in its log or not: no round is past the horizon |
| Following.AheadOutcome | datastore/crudlog/follow.go:14-60 | a sink ahead of its source: snapshot, second subscribe and stream together, with the final store and which of all outcomes it is |
| Following.AheadFollowerBlocked | datastore/crudlog/follow.go:14-60 | a sink that got ahead by applying operations stops with a conflict, below where it was, once the stream reaches its own last entry |
| Following.BlockedStaysBlocked | datastore/crudlog/follow.go:14-60 | a follower with an entry above its counter stays below it after any attempt, with or without a snapshot below that entry; unchanged if the very next entry is in the way and no snapshot is taken |
| Following.BlockedForEver | datastore/crudlog/follow.go:63-74 | and after any number of attempts, whatever their outcomes |
| Gateway.AddressesIff | gateway/wireguard.go:238-248 | the addresses of a peer are exactly its two columns as far as set, IPv4 first; none if and only if neither is set |
| Gateway.ShowsIff | gateway/wireguard.go:173-256 | the gateway shows the database if and only if it has its interfaces, one device each, with every stored peer under its key with exactly its columns, and nobody else |
| GatewayRefinement.InterfaceFollowsIff | gateway/wireguard.go:142-171 | when an interface operation is carried out; delete takes device and peers with it |
| GatewayRefinement.PeerCreateFollowsIff | gateway/wireguard.go:179-187 | a created peer is shown if and only if it can be served and every peer of its interface with its key has its addresses |
| GatewayRefinement.PeerUpdateFollowsIff | gateway/wireguard.go:189-209 | when an update of a stored peer is shown, for updates that stay on the interface and for those that move |
| GatewayRefinement.MovedPeerLost | gateway/wireguard.go:195-222 | a moved peer is off its old device, and on the new one if and only if a peer with the same key was there |
| GatewayRefinement.PeerDeleteFollowsIff | gateway/wireguard.go:211-222 | deleting a stored peer is shown if and only if no other peer of its interface has its key |
| GatewayRefinement.StrayUpdateFollowsIff | gateway/wireguard.go:189-222 | when an update of a peer that is not stored does no harm |
| GatewayRefinement.StrayDeleteFollowsIff | gateway/wireguard.go:211-222 | when a delete of a peer that is not stored does no harm |
| GatewayRefinement.PeerOutcomeIff | gateway/wireguard.go:173-223 | in any state, which peer operations are refused and which crash the gateway |
| GatewayRefinement.PeerRefusedLeaves | gateway/wireguard.go:173-223 | what a peer operation that is refused or crashes has changed already |
| GatewayRefinement.InterfaceOutcomeIff | gateway/wireguard.go:142-171 | in any state, which interface operations are refused, and what each leaves |
| GatewayRefinement.NumberMovesIff | gateway/wireguard.go:122-140 | the number moves with every applied operation and no other; other tables change nothing else |
| GatewayRefinement.FollowsIff | gateway/wireguard.go:122-140 | for every operation the database accepts, the exact condition for the gateway to show the database again |
| GatewayRefinement.GatewayRefinesIff | gateway/wireguard.go:122-223 | over any log, the gateway shows the database throughout if and only if it carries every operation |
| GatewayRefinement.TameLogShown | gateway/wireguard.go:122-223 | a new gateway shows the database throughout a log that hits its rows, keeps peers on their interface, and neither overwrites nor deletes one of several peers with one key |
| GatewayRefinement.InterfaceUpdateStops | gateway/interface.go:39-50 | every interface update fails, because the device is configured after it was stopped and before it is started, and leaves no device |
| GatewayRefinement.StaleIndexCrashes | gateway/wireguard.go:211-222 | deleting an interface and then one of its peers crashes the gateway while the database ignores the second delete |
| GatewayNode.LoadIff | gateway/wireguard.go:64-106 | a snapshot loads if and only if everything in it can be served; the gateway then shows that database if and only if one key means one set of addresses per interface and every device of a name it did not know is of an interface of the database |
| GatewayNode.LoadDevices | gateway/wireguard.go:50-106 | after a load a name has a device if and only if the database has that interface, or it had one and was not a known interface; after a load that fails, only some of the former |
| GatewayNode.CleanLoadShows | gateway/wireguard.go:64-106 | a gateway that knows all its devices shows a database it loads if and only if that can be served and one key means one set of addresses per interface |
| GatewayOrder.LoadOrderBlindIff | gateway/wireguard.go:64-120 | the order of the items leaves no trace, in loads that work and loads that fail, if and only if: when all can be served, one key means one set of addresses per interface; otherwise every other interface than one that cannot be served has its device left over already |
| GatewayOrder.CleanOrderBlindIff | gateway/wireguard.go:64-120 | with nothing left over, a load that fails leaves no trace of the order if and only if there is one interface |
| GatewayNode.LoadForgetsIff | gateway/wireguard.go:50-106 | two gateways load the same snapshot to the same state if and only if they have the same leftover devices outside it |
| GatewayNode.SnapshotAgreesWithReplay | gateway/wireguard.go:64-140 | a loaded gateway and one that replayed the log have the same interfaces, and the same devices if and only if none was left over; then they agree on every stored peer |
| GatewayNode.DeviceOfContents | gateway/wireguard.go:85-99 | a device gets only listed peers, all of them if those with one key agree, and in any case the last |
| GatewayNode.DeviceOfEntries | gateway/wireguard.go:85-99 | in columns: when a device can be filled, and that an entry is exactly the two columns of its peer |
| GatewayNode.Node.ApplyInterface | gateway/wireguard.go:142-171 | new state and outcome of an interface operation |
| GatewayNode.Node.ApplyPeer | gateway/wireguard.go:173-223 | new state and outcome of a peer operation, crashes included; a created peer is on its device with exactly its columns, if and only if it can be served |
| GatewayNode.Node.Apply | gateway/wireguard.go:122-140 | routing by type; the sequence moves only on success |
| GatewayNode.Node.SplitSnapshot | gateway/wireguard.go:108-120 | interfaces in order, and the peers of each interface in order |
| GatewayNode.Node.LoadSnapshot | gateway/wireguard.go:64-106 | the whole new state, with every known device stopped that is not made again; or on an error the old maps and number with the devices made so far |
| GatewayNode.Node.Close | gateway/wireguard.go:45-56 | the devices are exactly the old ones of names that are not known interfaces, as they were |
| GatewayRestart.KeptBeside | gateway/wireguard.go:27-223 | a gateway that finds devices is, at every point of any log, a new one beside those whose interfaces the log has not created |
| GatewayRestart.KeptShowsIff | gateway/wireguard.go:122-223 | where a new gateway shows the database, one that found devices shows it if and only if none of them is left, and in any case without them |
| EndToEnd.GatewaysServe | README.md:18-25 | in every run of a tree with gateways at its leaves, reconnected, closed, killed and restarted, every gateway shows the database of the datastores at its number, and of its source once nothing is under way, if and only if no found device is left, which holds from where it had been on |
| EndToEnd.FleetCanAgree | README.md:18-25 | from every state a fleet can reach, delivering and connecting leads to one in which every datastore has the primary's database and every gateway shows it |
| EndToEnd.FleetStepKeeps | gateway/wireguard.go:45-140 | every protocol step, clean stop and kill keeps datastores replicated and each gateway at what the log up to its number makes of one that found its devices |
| EndToEnd.KeptSinceRestart | gateway/wireguard.go:45-56 | over any run, the devices a gateway has found are those it had when last restarted: all after a kill, those of unknown names after a clean stop |
| EndToEnd.RestartEnabledIff | gateway/wireguard.go:27-56 | a gateway can be killed at any time, and closed unless it has crashed |
| Sessions.LinearHistory | datastore/sessions/sessions.go:106-144 | a peer's sessions begin before they end and follow one another, the open one last, however stale or reordered the reports |
| Sessions.ApartIff | datastore/sessions/sessions.go:106-144 | they never touch if and only if the peer's highest handshake is never found recent, then not, then recent again |
| Sessions.ClockForwardApart | datastore/sessions/sessions.go:114-144 | if the clock never goes back, they never touch |
| Sessions.ClockBackTouches | datastore/sessions/sessions.go:114-144 | with a clock that goes back, two sessions can touch |
| Sessions.SessionsConserved | datastore/sessions/sessions.go:122-143 | edges alternate, up first; sessions opened are those completed plus the open one |
| Sessions.RunOutcome | datastore/sessions/sessions.go:106-112 | the finder keeps the maximum of all handshakes seen |
| Sessions.ActiveOutcome | datastore/sessions/sessions.go:114-144 | after one dump a reported peer is active if and only if its maximum is recent |
| Sessions.TimeoutEdge | datastore/sessions/sessions.go:114-144 | in numbers: active up to and not including 600 seconds after the newest handshake, and what two reports of one handshake complete |
| Sessions.DumpOrderBlind | datastore/sessions/manager.go:38-51 | any order of one dump leaves the same handshakes and the same active peers |
| SessionOrder.DumpCompletes | datastore/sessions/manager.go:38-51 | only the first report of a peer in a dump can complete a session, and which |
| SessionOrder.DumpOpens | datastore/sessions/sessions.go:114-144 | the open session stays if the first report is recent, else a new one begins with the first recent report |
| SessionOrder.DumpOrderIff | datastore/sessions/manager.go:38-51 | every order completes the same sessions of a peer and leaves the same one open if and only if any two of its reports have the same effect: for an active peer both recent or the same newest handshake, for an inactive one the same if both are recent |
| SessionOrder.DumpOrderChangesSessions | datastore/sessions/manager.go:38-51 | a dump whose order changes the sessions it completes |
| SessionOrder.DumpOrderChangesBegin | datastore/sessions/manager.go:38-51 | a dump whose order changes the begin of the session it opens |
| SessionManager.SessionFinder.SetHandshakeTime | datastore/sessions/sessions.go:106-112 | keeps and returns the newest handshake |
| SessionManager.SessionFinder.Analyze | datastore/sessions/sessions.go:114-144 | new state and completed session for one report |
| SessionManager.Manager.ReceivePeerStats | datastore/sessions/manager.go:38-51 | completed sessions are appended in order; a failed insert or commit rolls the rows back but not the finder |
| SessionManager.ReceiveAll | datastore/sessions/manager.go:38-51 | while transactions commit, the table holds every completed session exactly once, in order |
| IPRange.IncrementedAddsOne | datastore/registration/iprange.go:49-57 | the increment adds one modulo the address space |
| IPRange.IncrementIP | datastore/registration/iprange.go:49-57 | the loop increments the array in place with carry |
| IPRange.BumpAdds | datastore/registration/iprange.go:37-47 | the k-th address is base plus k modulo the address space |
| IPRange.GeneratedNumbers | datastore/registration/iprange.go:37-47 | every generated address is the base plus its position plus one, modulo the address space |
| IPRange.GeneratedDistinct | datastore/registration/iprange.go:37-47 | and they are all different |
| IPRange.Generator.constructor | datastore/registration/iprange.go:17-34 | the generator starts one past the base, which is copied |
| IPRange.Generator.Next | datastore/registration/iprange.go:37-47 | the i-th call gives the i-th address, then nil for ever |
| IPRange.StaysInNetworkIff | datastore/registration/iprange.go:17-47 | the generator stays in its network if and only if the base is at most one past the network address, or the network is all addresses |
| IPRange.YieldsHostsIff | datastore/registration/iprange.go:17-47 | it yields exactly the host addresses if and only if the base is the network address |
| AddressBits.SameFirstBitsIff | datastore/registration/registration.go:97-97 | two addresses are in the same network of a size if and only if they agree on its first bits, read from the bytes |
| Registration.CoversIff | datastore/registration/registration.go:97-97 | a range covers an address if and only if they are of one family and agree on the range's first bits |
| Registration.AllocatedRanges | datastore/registration/registration.go:104-127 | the collected ranges cover exactly what the interface's peers cover |
| Registration.NextFreeIP | datastore/registration/registration.go:89-102 | ends; gives the first generated address that no range covers, which differs from each in one of its first bits; exhausted if and only if all are covered |
| Registration.Allocate | datastore/registration/registration.go:54-72 | the address differs from both columns of every peer of the interface in one of their first bits; from a network address it is a host address, and none is missed |
| Wire.ValueRoundTripIff | datastore/crud/encoding.go:21-50 | a value survives if and only if its type is registered and its name was not taken over |
| Wire.DecodesIff | datastore/crud/encoding.go:38-50 | an object decodes into a type if and only if every field it has of the type fits, to exactly these fields and zero values elsewhere |
| Wire.WireErrors | datastore/crud/encoding.go:21-50 | which error a value meets on its way out and back |
| Wire.DistinctNamesSurvive | datastore/crud/encoding.go:21-50 | with distinct names every registered type survives |
| Wire.OpRoundTripIff | datastore/crudlog/op.go:35-65 | sequence, type and value come back, the timestamp does not |
| Wire.KeptIff | datastore/crudlog/op.go:35-65 | an operation read back acts on all tables as before if and only if its type is registered and its name was not taken over |
| Wire.StoredLogKeptIff | datastore/crudlog/op.go:35-72 | a log that was applied acts alike after storage, operation by operation, if and only if that holds for every value in it |
| Wire.StoredLogReplays | datastore/crudlog/op.go:35-72 | such a log replays from any tables to the same tables at every point, and is accepted where the original is |
| Wire.Registry.Register | datastore/crud/crud.go:94-98 | later registrations of a type or a name win |
| Wire.DeleteAllReturnsIff | datastore/crud/crud.go:153-157 | clearing all tables returns if and only if no type is registered |
| Wire.ErrorRegistry.HTTPError | datastore/crud/httptransport/errors.go:32-49 | the code of the first entry the error matches, else an internal error |
| Wire.ErrorRegistry.UnwrapError | datastore/crud/httptransport/errors.go:51-68 | a bad request in JSON is the first entry with its code, or malformed; which statuses are permanent |
| Wire.ErrorRegistry.Send | datastore/crud/httptransport/errors.go:32-68 | a server error is recognised by the client if and only if no earlier entry uses its code for another error |

## Left out

- HTTP handlers and clients, the remote subscription reader and its backoff: a remote stream is modelled only as a local one that may end at any point.
- JSON and SQL text: a JSON value is an object of typed fields, addresses are texts, and the remote snapshot client, which loses item types, is not modelled.
- Sequence numbers are unbounded; the 64-bit limit is not modelled.
- Fairness: delivery can always go on and always ends, but nothing says that a step that can be taken is taken; the channels of PubSub are unbounded.
- Following.DoFollow: the source is given by its states at the moments it is asked; commits of the sink that fail after Emit are steps of Cluster and cases of Datastore.Database.Apply.
- EndToEnd.GatewaysServe: failing commits and datastores that load snapshots are not among its steps; what these break is said by StepKeepsInvIff.
- Kernel and netlink work: a device is its peers and their allowed addresses; WireGuard moving an allowed address from one peer to another is not modelled.
- Sessions: the GeoIP fields of a session, the periodic dump and the restore of sessions after a restart; sessions are values, so a caller's pointer to an open session is not modelled.
- Registration: the trie that stores allocated ranges is replaced by its meaning, and addresses are compared in one form; the registration call as a whole is left out, as it never stores the peer.
- Peer expiry, RBAC, migrations, command line and configuration: these would only add easy members.
