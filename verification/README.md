# A verified model of bunk

bunk lends one machine's docker (or a TCP port) to another. Each machine runs a daemon that keeps
one connection to a hub. The hub knows which machines exist, hands out one-time pairing codes,
remembers which pairs are linked, and relays sealed frames between linked machines without being
able to read them. A local connection becomes a channel: the consumer daemon cuts it into frames,
the hub routes them, the provider daemon writes them to the connection it dialed, and the other
direction works the same way. A shim in front of `docker run` reads the arguments and adds default
limits.

This project models those parts in Dafny and proves what they promise, in four groups.

**Relay channels** — `Endpoint` says what one end of a channel does with a frame, a read, an end of
input. `Channel` puts two ends together with what is in flight each way and proves the protocol's
invariants. `DaemonModel` is one daemon with all its channels and its one outbound queue;
`RelayDaemon` is the same daemon as objects updated in place, every operation proved equal to
`DaemonModel`; `PumpLoop` relates its read loop to the protocol's steps, and `DaemonPolicy` spells
out case by case whom a daemon serves and what it sends. `RelaySystem` is any number of daemons
around a hub, with loss at every hop; `RelayViews` proves that, seen from one channel id, every step
of the system is a step of `Channel` or nothing; `RelayRuns` states the theorems over whole runs,
`RelayAsked` those that start from what a channel was opened for, and `RelayExample` has three runs
in which something goes wrong. `RelayHub` puts the daemons together with the real hub below, its
sessions and its requests; `WholeRuns` proves that every run of that whole is, move by move, a run
of `RelaySystem` and a run of `HubRuns`, and carries the theorems over. A sealed frame is an ideal
box that only its addressee can open; `SealedText` says how the hub carries it as text.

**The hub** — `HubStore` (tables), `HubModel` (each handler as a function of the hub's state), `Hub`
(the handlers as they update the registry, the sessions and the store), `HubRuns` (whole runs, one
message or one disconnect per step), `HubHistory` (what the hub answers, and who is registered with
what name and key, told from the messages received), `HubPeers` (the machine list and the daemons'
caches of it) and `HubLocks` (the registry at the granularity of its mutex, with list requests and
their late answers, broadcasts from every source and sends that give up).

**The forward table** — `Forwards` and `ForwardThreads` interleave any number of threads inside
EnsureForward, StopForward and the restore between critical sections; `RestoreRuns` is a daemon's
start, one restore with any number of stops; `RecordRuns` is about the records in runs of all three;
`ForwardTable` is the table itself, with the in-place compaction, the restore and the auto-forward
tick.

**The docker-run rewriter and two small loops** — `RunArgs` (scanner), `RunTokens` (what it makes of
each kind of token), `Injection` (defaults), `DockerOptions` (a reference option parser in docker's
style), `Grammar` (a printer for the supported flags), `DecimalText` (the hub's integer printer) and
`PairingCode` (random codes).

What a step does not control — the clock, random bytes, the order of database rows, failing store
operations, lost messages, failing binds, dials and keys — is a parameter of the step.

What the proofs found, beside what holds:

- An expired code is never removed: the delete is undone by the deferred rollback
  (`HubRuns.ExpiredForGood`).
- A session that ends takes with it whatever is registered under its id, a newer session of the same
  machine included. Who is registered is exactly the session that entered last, unless the hub
  restarted since, or any session that knew itself by the id ended or took another
  (`HubHistory.RegisteredIff`).
- The broadcast never meets a closed queue, but a relay can: the target is looked up, the lock
  released, and the session may end before the send (`HubLocks.RelayMeetsClosedQueue`). In every run
  a relay meets one exactly when its target closed the queue between the lookup and the send; a
  target that is still registered has its queue open (`HubLocks.RelayMeetsClosedIff`).
- With handlers interleaved, an old machine list can be the last one sent
  (`HubLocks.OldListSentLast`). A session is up to date exactly when the last list put on its queue,
  by a broadcast or as an answer, was built when the registry had its present keys
  (`HubLocks.UpToDateIff`).
- A forward stopped while the restore is under way comes back as a listener without a record
  (`ForwardThreads.StopDuringRestore`). From the copy on, records and listeners match exactly when
  no port was put back after its last stop, no saved port is still out (because its turn has not
  come or it could not be bound), and none was saved twice (`RestoreRuns.MatchedIff`).
- A forward whose port could not be bound as the daemon started keeps its record, and starting it
  again adds a second one (`RecordRuns.StartedAgain`). From a list with one record per port, a port
  has two exactly when it had one at the start, was started again and not stopped since
  (`RecordRuns.RecordedTwiceIff`).
- A daemon that does not serve docker passes over a forward that names no address, and tells the
  opener nothing; every other refusal sends a close (`RelayAsked.ServedAsAsked`).
- A forward never hands over what arrived before its connection was attached; when the service
  speaks first, that is its greeting (`RelayExample.ServiceSpeaksFirst`). It is lossless for good
  exactly when its buffer was empty as the connection was attached (`RelayAsked.TcpLosslessIff`);
  what was opened for docker always is (`RelayAsked.DockerHandsOver`).
- A local connection attached after its channel was closed stays open: the hub's refusal, or the
  peer's close, can be handled before the attach (`RelayExample.RefusedFirst`). A connection is open
  without its channel exactly when it was attached too late (`RelayRuns.OrphanedIff`). Too late or
  not, the goroutine that waits for the end of a link or forward waits for ever, because its done
  channel is never closed (`RelayRuns.AttachedTooLate`).
- A frame from a peer whose key is unknown draws a close every time
  (`RelayExample.UnknownPeerClosedTwice`). An end sends a second close exactly when it handles such a
  frame for a channel it has closed (`RelayRuns.SecondCloseIff`).
- The documentation says that flags given by the user always win (README.md:130-133). This holds
  for the limits whatever the scanner missed; for `--gpus`, whose values add up in docker, it holds
  exactly when the injector adds none, and it fails when the scanner stops early
  (`DockerOptions.GpuRequestsKept`, `Grammar.GpuRequestWidened`). Inside the supported grammar it
  never fails (`Grammar.NothingAddedToUserFlags`).
- The hub's integer printer is right on every 64-bit integer but the minimum, which prints as `-`
  (`DecimalText.Itoa`).

`dafny verify dfyconfig.toml` checks everything.

## Model

| member | source | states |
|---|---|---|
| RelayDaemon.Daemon.OpenChannel | internal/daemon/relay.go:20-41 | the record is in the table and the opening frame queued, or, when the key or sealing fails, neither is left |
| RelayDaemon.Daemon.SendRelay | internal/daemon/relay.go:66-80 | exactly one sealed frame is queued, addressed and tagged as given, or none when sealing fails |
| RelayDaemon.Daemon.Detach | internal/daemon/relay.go:84-99 | only this channel leaves the table; its connection is closed and a probe's done channel with it |
| RelayDaemon.Daemon.CloseChannel | internal/daemon/relay.go:83-103 | closing is done once: a channel not in the table is left alone, and the peer is told only if asked and only then |
| RelayDaemon.Daemon.HandleRelay | internal/daemon/relay.go:107-194 | the whole effect of an inbound frame on records and queue, whatever service it names and whatever bytes it carries, for every denial, failed dial, missing key and foreign box, is the protocol's answer on that channel and on nothing else |
| RelayDaemon.Daemon.ServeCaps | internal/daemon/relay.go:150-159 | a probe is answered with one report at most and one close, and leaves no open channel |
| RelayDaemon.Daemon.RegisterDialed | internal/daemon/relay.go:196-200 | a dialed connection becomes an attached, empty link record |
| RelayDaemon.Daemon.HandleRelayClose | internal/daemon/relay.go:203-205 | a close from the peer or a refusal removes the channel and queues nothing |
| RelayDaemon.Daemon.HandleHubMsg | internal/daemon/daemon.go:464-475 | each message about a channel has the effect the protocol gives it, errors closing the channel they name |
| RelayDaemon.Daemon.PumpConnToPeer | internal/daemon/relay.go:215-243 | every chunk read is queued in order; the close follows the last one on the provider's side and on a sealing failure, and never on the consumer's end of input |
| RelayDaemon.Daemon.AppendCaps | internal/daemon/relay.go:264-270 | what a frame carries is appended to the probe's buffer if it opens, whatever service it names; otherwise everything stays as it was |
| RelayDaemon.Daemon.AttachLocal | internal/daemon/proxy.go:248-255 | attaching hands a link's connection all that was buffered, and a forward's nothing |
| RelayDaemon.Daemon.PipeLocal | internal/daemon/proxy.go:242-262 | a local connection is attached to a channel whose opening frame is queued, or nothing is left behind |
| DaemonPolicy.OpenSpelled | internal/daemon/relay.go:20-52 | the one frame an opening sends, and the record of the kind the service asks for, open exactly when sealing worked |
| DaemonPolicy.LocalSpelled | internal/daemon/relay.go:215-243 | when a local step makes a daemon give a channel up with a notice, what each step sends, and what it does to the record |
| DaemonPolicy.ReadSizes | internal/daemon/relay.go:227-231 | a read gives 1 to 32768 bytes of an open connection |
| DaemonPolicy.OpenChannelFrame | internal/daemon/relay.go:112-136 | a frame for an open channel is written or buffered if and only if it opens, and nothing is sent |
| DaemonPolicy.FreshFrame | internal/daemon/relay.go:138-194 | a frame for another channel opens it if and only if it opens itself and the daemon serves what it asks for, and what is sent back otherwise |
| DaemonPolicy.CloseSpelled | internal/daemon/relay.go:83-103 | a close or a refusal takes the channel out, closes what it holds and sends nothing |
| PumpLoop.PumpIsSteps | internal/daemon/relay.go:228-242 | the read loop, taken as a whole, is a sequence of allowed protocol steps with the same result |
| Endpoint.ReceiveOk | internal/daemon/relay.go:107-194 | whatever arrives, an end's connection and buffer together hold exactly the frames it took, in order, and a done channel is closed exactly when a probe leaves the table |
| Endpoint.LocalOk | internal/daemon/proxy.go:248-262 | local steps keep the same, the flush included |
| Channel.InvStep | internal/daemon/relay.go:105-243 | the protocol's invariants — one opening frame, first; closes last; bytes accounted for in both directions — survive every step, loss and refusal |
| Channel.StaysStep | internal/daemon/relay.go:236-240 | in a clean run the consumer keeps a link or forward until it handles the provider's close, and has then taken every chunk |
| Channel.ServiceEof | internal/daemon/relay.go:236-240 | the end of the service's output is followed by the close and nothing else, with no chunk left unsent |
| Channel.ClosesAreSent | internal/daemon/relay.go:83-103 | in every step what an end sends is what is put last on the way to the other, and its count of closes grows by exactly the close frames in that |
| RelayViews.Refinement | internal/daemon/relay.go:66-80 | queues shared by all channels and a hub that serialises them neither reorder nor mix a channel: each step of the system is a step of that channel or none |
| RelayViews.SentPackets | internal/daemon/relay.go:66-80 | what a daemon seals for a channel is what the other side finds in the boxes, and other channels see none of it |
| RelaySystem.RoutedStep | internal/hub/hub.go:258-269 | messages and records of a channel stay between the two machines it was opened between, each box sealed by one for the other |
| RelayRuns.BytesInOrder | internal/daemon/relay.go:105-136 | in every run and both directions the chunks taken and in flight are a subsequence of those read; when nothing of the channel was lost the bytes taken are a prefix, and taken, in flight and pending together are everything read while the receiver is open |
| RelayRuns.DeliveredInFull | internal/daemon/relay.go:208-243 | in an undisturbed run a consumer that no longer has its link or forward has taken exactly the bytes the provider read, and the provider has closed once |
| RelayRuns.ProbeExact | internal/daemon/proxy.go:267-283 | what a caps probe decodes is nothing or exactly the provider's one report, whatever is lost |
| RelayRuns.ProbeAnswered | internal/daemon/relay.go:150-159 | in an undisturbed run the close finds the report in the probe's buffer |
| RelayRuns.NeverReopened | internal/daemon/relay.go:83-103 | at every machine a channel goes absent, open, closed, and never back |
| RelayRuns.SecondCloseIff | internal/daemon/relay.go:139-143 | in every run a machine sends a second close of a channel if and only if it has handled, with the peer's key unknown, a relay frame for the channel after closing it |
| RelayRuns.ClosedOnce | internal/daemon/relay.go:83-103 | each end sends at most one close if and only if that never happens, and none while it has the channel; a done channel is closed at most once in any run |
| RelayAsked.KindsAsked | internal/daemon/relay.go:43-52 | from the step that opens a channel on, its opener has a link for docker, a forward for an address, a probe for capabilities, and its peer a dialed link or a probe's end |
| RelayAsked.DockerHandsOver | internal/daemon/proxy.go:248-255 | a channel opened for docker has, at both ends and at all times, written everything it took once attached, and has it all in the buffer before |
| RelayAsked.TcpLosslessIff | internal/daemon/proxy.go:252-255 | a channel opened for an address is lossless at the peer, and at the opener, at every time after its connection is attached, if and only if its buffer was empty at that moment |
| RelayAsked.AskedAsOpened | internal/daemon/relay.go:37-38 | a frame that names a service reaches only the peer the channel was opened to, with the service and the address the opening step named |
| RelayAsked.ServedAsAsked | internal/daemon/relay.go:138-194 | in every run the peer has the channel open after that frame if and only if it knows the key, serves docker or was asked for an address it may dial, and somebody answers; and what it sends back in each other case |
| RelayExample.ServiceSpeaksFirst | internal/daemon/proxy.go:252-255 | a run of the system in which the service's first bytes arrive before the forward is attached and are never written |
| RelayRuns.AttachedTooLate | internal/daemon/proxy.go:242-262 | a local connection is at every later time open without its channel if and only if the channel was already closed as it was attached; the done channel of a link or forward is never closed |
| RelayRuns.OrphanedIff | internal/daemon/relay.go:83-103 | in every run a machine has a connection open without its channel if and only if it attached one to a closed channel; no dialed connection is ever left so |
| RelayExample.RefusedFirst | internal/daemon/proxy.go:242-262 | the input: a run in which the hub's refusal of the opening frame is handled before the attach |
| RelayExample.UnknownPeerClosedTwice | internal/daemon/relay.go:139-143 | the input: a run in which a provider without the consumer's key closes one channel twice |
| RelayRuns.OpenedBy | internal/daemon/relay.go:20-41 | the two machines of a channel are for good those of the step that opened it |
| RelayRuns.CloseIsNotAnswered | internal/daemon/daemon.go:464-475 | handling a close or a refusal queues nothing |
| RelayRuns.HalfCloseIsLocal | internal/daemon/relay.go:211-214 | the end of a local connection's input changes no channel table, no queue and no other end in the whole system |
| RelayRuns.BoxesOpen | internal/daemon/relay.go:246-262 | every box that reaches a machine was sealed for it by the machine at the channel's other end |
| RelayRuns.FlagsMean | internal/hub/hub.go:129-134 | a channel counts as undisturbed exactly when no step of the run lost or refused a message of it or missed a key |
| RelayHub.WholeStep | internal/hub/hub.go:51-81 | whatever daemons, sessions and hub do, a session has read no more than was queued for it, knows itself only by its owner's id, and the registry is in order |
| RelayHub.PacketHandled | internal/hub/hub.go:242-287 | a daemon's packet is queued once for the session registered under its address, or an error for the sender, or nothing is queued that anyone will read |
| RelayHub.PacketInbox | internal/hub/hub.go:242-287 | so it adds to what the addressee has still to read the packet under its sender's id, or the failure to the sender's, and nothing to anyone else's |
| WholeRuns.InRelaySystem | internal/hub/hub.go:51-81 | every run of daemons and real hub, sessions broken off, re-registered or orphaned included, is followed move by move by one run of the relay system, whose inboxes are the unread parts of the queues and whose steps are the moves' or losses they cause; a channel of which no move lost or refused anything is undisturbed there |
| WholeRuns.InHubRuns | internal/hub/hub.go:141-160 | and move by move by one run of the hub, so that what was proved of those holds in it |
| WholeRuns.WholeBytes | internal/daemon/relay.go:105-243 | with the real hub in the middle, from the move that opens a channel on, only its opener and the peer have an end of it, both directions carry their bytes in order, and nothing is missing when no move lost or refused any |
| WholeRuns.NeverReopened | internal/daemon/relay.go:83-103 | no channel reopens at any machine |
| WholeRuns.SecondCloseIff | internal/daemon/relay.go:139-143 | a daemon has sent a second close if and only if it handled, with the key unknown, a relay frame for a channel it had closed |
| WholeRuns.DockerHandsOver | internal/daemon/proxy.go:248-255 | a channel opened for docker hands over everything at both ends |
| WholeRuns.TcpLosslessIff | internal/daemon/proxy.go:252-255 | a channel opened for an address is lossless at its opener for good if and only if its buffer was empty as it was attached |
| WholeRuns.OrphanedIff | internal/daemon/proxy.go:242-262 | a daemon has a connection open without its channel if and only if it attached one to a closed channel |
| SealedText.SomeCodecInverts | internal/daemon/relay.go:66-80 | sealed boxes can be written as text and read back, as those statements suppose |
| HubStore.Store.UpsertMachine | internal/hub/state.go:50-56 | the row is written, or nothing on an error |
| HubStore.Store.CreateCode | internal/hub/state.go:87-92 | an outstanding code is never overwritten |
| HubStore.Store.ConsumeCode | internal/hub/state.go:95-121 | a code leaves the table only when its owner is returned; an expired one, and any failure, leaves the table as it was |
| HubStore.Store.AddACL | internal/hub/state.go:124-131 | the one row of the unordered pair is added |
| HubStore.Store.HasACL | internal/hub/state.go:134-141 | asks for the row of the unordered pair |
| HubStore.Store.DeleteACL | internal/hub/state.go:144-150 | the one row of the unordered pair is removed |
| HubStore.PairDetermines | internal/hub/state.go:124-127 | two orderings name one row exactly when they are the same two machines |
| Hub.Server.OnHello | internal/hub/hub.go:162-187 | registration, name change and re-registration under another id, with every error path, in store, registry and queues |
| Hub.Server.OnMakeCode | internal/hub/hub.go:189-200 | a fresh code is stored for the session's machine and returned, or nothing changes but the error reply |
| Hub.Server.OnPair | internal/hub/hub.go:202-227 | a redeemed code links owner and redeemer, and is spent even when linking fails or the machine is its own owner |
| Hub.Server.OnRevoke | internal/hub/hub.go:229-240 | the pair is unlinked and everyone told |
| Hub.Server.OnRelay | internal/hub/hub.go:242-270 | a frame goes to the registered session of a linked machine, an error back to the sender otherwise |
| Hub.Server.OnRelayClose | internal/hub/hub.go:272-287 | a close goes to the registered session if there is one |
| Hub.Server.ListMachines | internal/hub/hub.go:304-330 | the list has one line per row the store could read, in the store's order |
| Hub.Server.BroadcastUpdate | internal/hub/hub.go:295-302 | every registered session gets the list once, no other session gets anything |
| Hub.Server.Dispatch | internal/hub/hub.go:141-160 | one inbound message changes the hub as its handler says |
| Hub.Server.End | internal/hub/hub.go:71-81 | the end of a session removes whatever is registered under its id |
| HubRuns.RunOk | internal/hub/hub.go:162-187 | in every run each registered session knows its own id, and every registered id, code owner and linked machine is a row of the store |
| HubRuns.AclStep | internal/hub/hub.go:202-240 | pairing and revoking are all that changes who may talk |
| HubRuns.CodeStep | internal/hub/state.go:87-121 | minting and redeeming are all that changes the codes; an outstanding code keeps owner and expiry |
| HubRuns.LinkedIff | internal/hub/state.go:124-150 | two machines are linked exactly when some pairing has no revocation after it |
| HubRuns.LinkJustified | internal/hub/hub.go:189-240 | they are linked exactly when the last such event is a pairing that redeemed, in time, a code one of them minted and the other spent; no machine is linked to itself |
| HubRuns.CodeProvenance | internal/hub/hub.go:189-200 | every outstanding code was minted by its owner and not redeemed since |
| HubRuns.RedeemedInTime | internal/hub/state.go:95-121 | every redemption spends an earlier minting that nothing else spent, not after its expiry |
| HubRuns.RedeemedOnce | internal/hub/state.go:95-121 | between two redemptions of one code lies a new minting |
| HubRuns.CodesConserved | internal/hub/state.go:87-121 | outstanding codes plus redemptions equal mintings |
| HubRuns.ExpiredForGood | internal/hub/state.go:98-113 | an expired code stays for good, is never redeemed and can never be minted again |
| HubRuns.FrameAuthority | internal/hub/hub.go:242-270 | every frame queued came from a session known as its origin, over a link, for the registered session of its target, unchanged |
| HubRuns.HandleIds | internal/hub/hub.go:162-187 | a session's id changes by its own hello only |
| HubRuns.FrameForwarded | internal/hub/hub.go:258-269 | and every such frame is queued, once, unless the store or the five-second wait fails |
| HubRuns.FrameJustified | internal/hub/hub.go:242-270 | in every run each frame queued rests on a pairing not revoked since |
| HubRuns.NoFrameAfterRevoke | internal/hub/hub.go:229-240 | after a revocation no frame passes either way until the next pairing |
| HubHistory.RequestAnswered | internal/hub/hub.go:141-240 | every request but relays and closes is answered once, with the welcome, the code just minted, the code's owner, the target named, the list, or an error, exactly in the cases named; and everybody registered gets the new list exactly when a machine entered or a link changed |
| HubHistory.EndAnnounced | internal/hub/hub.go:71-81 | the end of a session is announced to everybody still registered if and only if it had an id |
| HubHistory.SessionStep | internal/hub/hub.go:162-180 | a session takes id and name from a hello if and only if that names a machine and a key, presents the hub's token if there is one, and the row is written; no other step changes them |
| HubHistory.RegistryStep | internal/hub/hub.go:174-181 | a session is registered under an id after a step if and only if it entered so in it, or was before and was not ousted |
| HubHistory.IntroducedIff | internal/hub/hub.go:162-180 | in every run a session has an id if and only if it presented the hub's token since it joined, and id and name are those of its last such hello |
| HubHistory.RegisteredIff | internal/hub/hub.go:71-81 | in every run a session is registered under an id if and only if it entered so and since then the hub did not restart, nobody entered under the id, and no session that knew itself by it ended or took another |
| HubHistory.RowIff | internal/hub/state.go:50-56 | in every run a machine has a row if and only if it gave name and key in an accepted hello or a redemption, and the row is what it gave last |
| HubHistory.DirectoryLine | internal/hub/hub.go:304-330 | the line of a machine in every run: the key it gave last, online if somebody is registered for it, with the name that session gave, or the name given last |
| HubHistory.ListLines | internal/hub/hub.go:304-330 | a list has one line for each row the store could read, in its order, and each is the directory's |
| HubHistory.GoodForADay | internal/hub/state.go:87-121 | an unspent code is good for its owner up to 86400 seconds after its minting and no longer |
| HubPeers.ReplacePeers | internal/daemon/daemon.go:440-446 | the cache is replaced by the list, keyed by id |
| HubPeers.OnlineIffRegistered | internal/hub/hub.go:313-326 | a machine is listed as online exactly when a session is registered for it |
| HubPeers.BroadcastRepairs | internal/hub/hub.go:295-302 | a broadcast that arrives makes a registered session's cache right whatever was lost before |
| HubPeers.CacheCoherent | internal/hub/hub.go:162-187 | without store errors or lost updates, what a registered session has still to handle brings its cache to exactly the hub's list |
| HubLocks.RegistrySafe | internal/hub/hub.go:71-81 | at lock granularity each registered session is listed once, under its id, with its queue open, and of all sends, broadcasts and answers included, only a relay's can meet a closed queue |
| HubLocks.GoneForGood | internal/hub/hub.go:71-81 | a session that left is never registered again |
| HubLocks.UpToDateIff | internal/hub/hub.go:295-330 | in every run, list answers and lost sends included, a session's list is right if and only if the last list put on its queue was built when the registry had its present keys |
| HubLocks.QuietRegistry | internal/hub/hub.go:304-330 | and a list built after the last registration and departure is such a list |
| HubLocks.ClosedIff | internal/hub/hub.go:71-81 | a queue is closed exactly when its session has closed it |
| HubLocks.RelayMeetsClosedIff | internal/hub/hub.go:255-262 | in every run a relay meets a closed queue if and only if its target closed it after the relay's lookup, and never while the target is registered |
| HubLocks.RelayMeetsClosedQueue | internal/hub/hub.go:255-262 | the input: an interleaving in which a relay sends to a closed queue |
| HubLocks.OldListSentLast | internal/hub/hub.go:295-302 | an interleaving in which an old list is sent last |
| ForwardThreads.OwnedStep | internal/daemon/proxy.go:190-204 | every critical section keeps each bound port with exactly one holder: the table, a thread that bound it, or a thread about to close it |
| ForwardThreads.ExactlyOneHolder | internal/daemon/proxy.go:182-238 | so it is in every interleaving of starts, stops and restores |
| ForwardThreads.NeverOverwrites | internal/daemon/proxy.go:201-204 | the insert that does not check again never overwrites a listener, and the restore's check never finds one |
| ForwardThreads.AlwaysMatched | internal/daemon/proxy.go:182-238 | from matching records and listeners, every interleaving of starts and stops keeps them matched at each release of the lock |
| ForwardThreads.RestoreMatches | internal/daemon/proxy.go:116-134 | restoring a saved list with all ports free makes them match |
| ForwardThreads.StopDuringRestore | internal/daemon/proxy.go:116-134 | the input: an interleaving of a stop with the restore that leaves a listener without a record |
| RestoreRuns.PortState | internal/daemon/proxy.go:116-134 | during one restore of any saved list, each port granted or not, among any number of stops, a port has a listener exactly when it was inserted and not stopped since, and the records are those of the copy not stopped since, in order |
| RestoreRuns.MatchedIff | internal/daemon/daemon.go:253-262 | at every time after the copy records and listeners match if and only if no port came back after its last stop, no saved port is still out, and none was saved twice |
| RestoreRuns.GrantedMatchedIff | internal/daemon/proxy.go:116-134 | once the restore of a list with one record per port is through and every port was granted, nothing is still out, and only the first condition is left |
| RestoreRuns.OnlySaved | internal/daemon/proxy.go:118-126 | only saved ports come back, and no port that is not positive |
| RecordRuns.RecordedTwiceIff | internal/daemon/proxy.go:190-204 | in every interleaving of starts, stops and restores from one record per port, a port has two records if and only if it had one at the start, was started again and not stopped since |
| RecordRuns.StartedAgain | internal/daemon/proxy.go:116-134 | the input: the restore cannot bind a port, and its forward is started again |
| ForwardTable.Table.EnsureForward | internal/daemon/proxy.go:182-204 | accepted exactly when both ports are valid, the local one is neither forwarded nor bound, and the system grants it; then one record and one listener are added |
| ForwardTable.Table.Compact | internal/daemon/proxy.go:226-232 | the slice compacted over itself keeps exactly the records of other ports, in order |
| ForwardTable.Table.Take | internal/daemon/proxy.go:221-233 | the listener and every record of the port leave together |
| ForwardTable.Table.StopForward | internal/daemon/proxy.go:220-239 | the port is free again, and an error means there was no listener |
| ForwardTable.Table.RestoreForwards | internal/daemon/proxy.go:116-134 | from any table and any saved list, repeated ports included, exactly the ports that can be bound and have no listener come back; records and other listeners are left alone |
| ForwardTable.DeadDropped | internal/daemon/proxy.go:361-364 | with one record per port, stopping the dead ports drops exactly the dead forwards |
| ForwardTable.GroupByMachine | internal/daemon/proxy.go:351-354 | the group of a machine is its automatic forwards, all of them, in their order |
| ForwardTable.Tick | internal/daemon/proxy.go:336-368 | with one record per port a tick keeps, in order and whatever order the machines come in, exactly the forwards that are manual, or on a machine that did not answer, or whose remote port is still published there; the listeners of all other records' ports close |
| ForwardTable.StoppedMatched | internal/daemon/proxy.go:220-239 | stopping any set of ports keeps records and listeners matched |
| RunArgs.ScanRunArgs | internal/cli/shim.go:167-217 | the index loops compute the same flags, publish specs and detached bit as a token-by-token definition |
| RunArgs.ScanShort | internal/cli/shim.go:195-213 | the inner loop over a short cluster, with the spec it may take from the next token |
| RunTokens.KnowsValueFlags | internal/cli/shim.go:219-232 | the flags that take a value are exactly those listed, by what they are about |
| RunTokens.LongToken | internal/cli/shim.go:176-192 | a long flag is seen, and the token after it is passed over if and only if it is one of them; a publish records the empty spec |
| RunTokens.LongEqToken | internal/cli/shim.go:176-192 | the same with a value attached; an empty one still takes the next token |
| RunTokens.LettersToken | internal/cli/shim.go:194-201 | every letter of a cluster is seen |
| RunTokens.AttachedToken | internal/cli/shim.go:202-206 | what follows the p in a cluster is a spec |
| RunTokens.PublishToken | internal/cli/shim.go:207-210 | a p at the end takes the next token as its spec, if there is one |
| RunTokens.ScanEnds | internal/cli/shim.go:173-178 | the scan ends at `--`, at an empty token and at the image |
| Grammar.RoundTrip | internal/cli/shim.go:167-232 | what was printed in the supported grammar is what the scanner reports, whatever follows the image |
| Grammar.SeenByScanner | internal/cli/shim.go:147-158 | every limit or GPU flag docker sees in such options is in the scanner's set |
| Grammar.NothingAddedToUserFlags | README.md:130-133 | for commands in the grammar nothing is ever added to a limit or GPU request the user made |
| Grammar.GpuRequestWidened | internal/cli/shim.go:155-159 | a command outside the grammar whose GPU request is added to |
| Injection.ClampLimits | internal/cli/shim.go:126-141 | the cores given are the lesser of those configured and the host's, the memory the lesser of that configured and the host's less one gigabyte but at least one; a host that says nothing lowers nothing |
| Injection.InjectDefaults | internal/cli/shim.go:125-164 | behind the first argument stand, in this order, `--cpus`, `--memory`, `--pids-limit` and `--gpus`, each with its value and exactly under its guard; the rest is untouched |
| Injection.ScanPassesDefaults | internal/cli/shim.go:219-232 | scanning passes over injected flags and sees their names only |
| Injection.InjectedScan | internal/cli/shim.go:167-217 | an injected command has the same publishes and detached bit as before |
| Injection.InjectionIdempotent | internal/cli/shim.go:125-164 | injecting a second time changes nothing |
| DockerOptions.MeaningPreserved | internal/cli/shim.go:160-164 | docker reads the injected command as the user's with settings in front, even where the scanner stopped early |
| DockerOptions.UserSettingsWin | README.md:130-133 | every value the user set stays in force, image and arguments are the same, and an unset limit has the configured value lowered to the host's if and only if that is positive and none of the limit's flags was seen |
| DockerOptions.GpuRequestsKept | internal/cli/shim.go:155-159 | GPU requests are left as given if and only if GPUs are switched off in the configuration or the environment, the host has no nvidia card, or the scanner saw GPUs or devices asked for |
| DecimalText.Itoa | cmd/bunk-hub/main.go:48-68 | the index stays in the 20-byte buffer, and the text parses back to the number with no leading zero if and only if it is not the 64-bit minimum |
| DecimalText.CanonicalUnique | cmd/bunk-hub/main.go:48-68 | such text is the only one for its number |
| PairingCode.RandomCode | internal/hub/hub.go:343-357 | each letter is that of its byte, with the dash in the middle |
| PairingCode.SameCodeIff | internal/hub/hub.go:344-355 | codes are well formed, and two draws agree exactly when all bytes agree modulo 32 |
| PairingCode.EightBytes | internal/hub/hub.go:344-355 | each letter is given by exactly eight of the 256 bytes, so none is likelier than another |
| PairingCode.EveryCodeDrawn | internal/hub/hub.go:344-355 | every well-formed code can be drawn |

## Left out

- Cryptography and base64: a sealed frame is an ideal box; a key is known or not.
- WebSocket, SQLite, sockets and HTTP: queues with loss, tables in memory, a port table in which a port is bound once.
- Reconnecting, backoff, keepalive deadlines and the replacement of a daemon's writer: their losses are loss steps; frames of an old and a new session of one machine overtaking each other are not modelled.
- Pairing waiters and the control socket of the daemon: outcomes depend on when a waiter is registered.
- EnsureLink, its listeners and the links part of the restore; resolving peers by name; saving state to disk; port probing and capability detection; printing.
- A daemon opening a channel to itself: the hub never links a machine with itself, so every frame of it is refused.
- Machines that share a channel id on purpose: ids are fresh and daemons honest.
- The created_at columns of the store and the failure of the random source.
- HubRuns.FrameAuthority: a handler is one step; at lock granularity a link checked just before a revocation can still carry one frame.
- HubPeers.CacheCoherent: a handler, its broadcast included, is one step; HubLocks.OldListSentLast shows what interleaving does to it.
- HubLocks.RegistrySafe: the store, and what messages say beside machine lists, are not part of the lock-level model.
- HubLocks.UpToDateIff: a list counts by the machines it has online; their names and links are in HubPeers.
- RestoreRuns.MatchedIff: no forward is started meanwhile, because the daemon resolves no peer before its connection to the hub is up (internal/daemon/daemon.go:253-262).
- WholeRuns.InRelaySystem: a session is never dialed twice, a daemon sends over its current session only, and a hello carries the id of the machine that dialed.
- ForwardThreads.AlwaysMatched: does not include restore threads, because the statement is false with one (ForwardThreads.StopDuringRestore); RestoreRuns.MatchedIff and RecordRuns.RecordedTwiceIff say when it holds.
- ForwardTable.Table.EnsureForward: taken with nobody else inside; the interleavings are in ForwardThreads.
- ForwardTable.Tick: one step; a forward started between the copy and a stop is not considered, and what containers publish is a parameter.
- RelayDaemon.Daemon.HandleRelay: one step, the dial included.
- RelaySystem.RoutedStep: every daemon is an honest one, which sends no bytes with a frame that names a service.
- RelayDaemon.Daemon.PumpConnToPeer: the loop without interruption; reads, sends and the end of input are separate steps in RelaySystem.
- RelayDaemon.Daemon.AttachLocal: attaching and flushing are one step; the source flushes outside the lock, where a frame handled in between could be written first.
- RelayRuns.DeliveredInFull: says nothing of a disturbed channel, for which RelayRuns.BytesInOrder gives a subsequence.
- Grammar.RoundTrip: `--publish SPEC` as two tokens, short flags with a value other than -p, and `--f=` with an empty value are outside the grammar, as they are outside what the scanner supports; `--detach=false` counts as detached.
- RunArgs.ScanRunArgs: a token is a sequence of bytes; the two-byte key the source makes of a non-ASCII letter is one character here.
- DockerOptions.MeaningPreserved: docker's parser is a reference in the style of its flag library, given a table of its flags; `-p=SPEC`, which docker and the scanner read differently, is not in the grammar.
