# Verified models of the service manager

Dafny 4.11 models of the peer cache, the L4 service chain and the smaller parts they rest on, with proofs of
what they promise over whole runs. `dafny verify dfyconfig.toml` checks everything.

| file | what it models |
|---|---|
| `PeerCacheSpec.dfy`, `PeerCacheStore.dfy`, `PeerCacheRuns.dfy` | the three-level reliability ladder: the fate of one entry, the object that edits its levels in place, and runs of AddPeer, RemovePeer, GetPeer and updateCache |
| `ChainSpec.dfy` | chain specifications, the handler's token scan, and the walk from proxy to proxy |
| `ChainProtocol.dfy`, `ChainInvariant.dfy`, `ChainSafety.dfy` | chain setup and relay as one transition system over any number of proxies, its invariant and its safety theorems |
| `ChainCompletion.dfy`, `ChainProgress.dfy` | the runs that open a chain and deliver, and what is sure to happen in any order of steps when nothing fails |
| `ChainFailures.dfy` | what is refused, lost, reset or not meant for a handler, and the independence of its forwarders |
| `Teardown.dfy` | how the forwarders of a running chain take each other down |
| `ForwarderLoops.dfy` | the data loops between a connection and a stream |
| `UdpDemux.dfy` | the UDP service proxy: one stream per client, one retry per datagram, replies by reverse forwarder |
| `UriTable.dfy` | URI paths as specifications, and the table of forwarders with their listening sockets |
| `RegistryCacheModel.dfy` | the TTL cache, sequential and with callers interleaved |
| `FindAlloc.dfy` | the find-or-allocate loop, both copies, on the peer cache object |
| `Common.dfy` | `Option`, `FilterMap` and multiset facts |

## How to read the models

- **Peer cache.** Every operation holds the lock throughout, so it is one step. Each entry carries a `tag`, which the
  program does not have: the same peer ID may be cached twice, and the tag says which entry is meant. An update takes
  an oracle that gives, for each tag, the ping's RTT and the requirements the registry lookup returned. A lookup error
  is only logged (pcache/pcache.go:158-162), so the pass goes on with whatever the lookup returned beside it; what that
  is, `GetServiceWithHostRouting` decides, which is not part of this repository, so the oracle leaves it open.
  `PerfInd.LessThan` is not part of this repository either; it is taken to be comparison of RTTs.
- **Chain.** A node is one invocation of the setup handler. `resolveService(name)` is taken to return a proxy that
  serves `name`; its failures, and those of opening a stream or dialling the service, are the steps `SrcFail` and `Quit`,
  possible at any time. A stream may be reset at any time; a write to a reset stream fails. A channel is the log of
  messages sent and the number received, so what is in flight is the rest of the log. A step that is not possible
  changes nothing, so a run is any sequence of actions whatever. Only the last node can be about to dial its successor
  (`ChainInvariant.Reachable`), which is why `Forward` asks for it.
- **UDP.** The answers of setupChain and of writes, and the close callbacks that run between them, are parameters of each
  datagram. The callback may run or not: it tests for `udpTunnelProtoID` (l4-proxy/udp-proxy.go:141) while the source
  opens its streams with `chainSetupProtoID` (l4-proxy/chain-setup.go:479). Messages that come back on a stream are events
  of their own; the stream's reverse forwarder writes them to the client address it was started with.
- **Forwarder table.** A service proxy closes its listening socket when it ends (l4-proxy/udp-proxy.go:125-128,
  l4-proxy/tcp-proxy.go:135-138) and its table entry stays. The operating system is taken to hand out no address on
  which an open socket of the same transport listens; it may hand out one that was closed.
- **Find or allocate.** FindService, AllocService, AllocBetterService and the backoff attempts are answers given per
  attempt; the number of backoff attempts is arbitrary (the comment says three, the code passes five).

## What turned out not to hold

- RemovePeer need not remove the entry that GetPeer returned. `RemoveTakesReturned` gives the exact condition: the entry
  stands in the first slot of the window (three slots of the top level, then three of the middle level) that holds its
  ID. It fails when the entry stands behind the window (`RemoveCanMissGet`) and when another entry with the same ID
  stands before it (`RemoveCanTakeAnother`). `Drains` shows the retry loop is sound when all entries share a service.
- Removing the peer GetPeer returned need not give the next best one: RemovePeer moves the level's last entry into the
  freed slot, so after an update the one with the highest RTT comes next (`SlowestComesNext`).
- A chain that names a service twice with another in between never ends: `LoopedVisits`, `ChainEndsIffContiguous`, for
  the protocol `SetupPossibleIffContiguous`, and `tcp/a/b/a` as an instance in `BackAndForth`.
- An empty token ends a chain: `tcp/a//b` sets up `a` alone. `TailIsIgnored` says so for every specification, and the
  results on chains are about the part before the first empty token.
- A UDP datagram that could not be sent does not always leave its client out of the map. `SentOrForgotten` gives the exact
  condition: it does not when a stream was there to write to, the write failed, setting up again failed, and no close
  callback for that stream had come before the write. `ShutDownKeepsDeadStream` reaches this case from the start.
- Two chains may have the same listening address in the table: `FreedAddressIsReused` for any two chains of one transport,
  `TransportsMayShare` for a TCP and a UDP chain. `LiveChainsDoNotShare` and `SharedOnlyAfterClose` say what does hold.

## Model

| member | source | states |
|---|---|---|
| PeerCacheSpec.SwapRemoveKeeps | pcache/pcache.go:85-89 | rpfs loses only element i: earlier slots stay, later ones are the old later ones in some order |
| PeerCacheSpec.SwapRemoveSlots | pcache/pcache.go:85-89 | slot i gets the old last element, every other slot keeps its own, and the slice is one shorter |
| PeerCacheSpec.SlotOf | pcache/pcache.go:111-124 | the slot found is the first among the leading three with this ID, and none is found only if none has it |
| PeerCacheSpec.FirstOffering | pcache/pcache.go:136-142 | the first entry of the level with this service hash, none exactly when no entry has it |
| PeerCacheStore.PeerCache.constructor | pcache/pcache.go:60-76 | three empty levels |
| PeerCacheStore.PeerCache.AddPeer | pcache/pcache.go:91-104 | one new entry with count 50 at the end of the middle level, everything else unchanged |
| PeerCacheStore.PeerCache.RemovePeer | pcache/pcache.go:106-127 | the whole new state is Removed of the old one, which RemovedSlots and RemoveIsExact describe slot by slot |
| PeerCacheStore.PeerCache.GetPeer | pcache/pcache.go:130-145 | the ID of the first match, top level before middle level |
| PeerCacheStore.PeerCache.MeasureLevel | pcache/pcache.go:156-195 | the in-place first pass leaves exactly the measured survivors of a level, each entry pinged once |
| PeerCacheStore.PeerCache.DemoteTop | pcache/pcache.go:197-208 | the in-place pass over the top level keeps the reliable entries and appends the others, reset to 50, to the middle |
| PeerCacheStore.PeerCache.ShiftMiddle | pcache/pcache.go:210-231 | the in-place pass over the middle level keeps counts 10 to 90 and appends those above 90 to the top |
| PeerCacheStore.DemotedStays | pcache/pcache.go:197-231 | an entry demoted by the pass over the top level is not moved again by the pass over the middle level |
| PeerCacheStore.SortByPerf | pcache/pcache.go:235-240 | the same entries, best RTT first |
| PeerCacheStore.PeerCache.UpdateCache | pcache/pcache.go:149-241 | the three passes with swap-removal, cross-level appends and shrinking bounds give every starting entry the fate it has alone: each level is, as a multiset, what lands there, and sorted; each entry is pinged exactly once |
| PeerCacheRuns.Origin | pcache/pcache.go:149-241 | nothing in a level after an update is new: it is the image of one starting entry |
| PeerCacheRuns.Arrives | pcache/pcache.go:149-241 | no entry that keeps its place in the cache is lost by an update |
| PeerCacheRuns.UpdateIgnoresOrder | pcache/pcache.go:149-241 | starting from the same entries in another order gives the same entries in each level |
| PeerCacheRuns.LadderStep | pcache/pcache.go:179-234 | the exact result for each level, count and verdict in reachable states; the clamp to zero is never used and nothing moves twice |
| PeerCacheRuns.ZeroRequirementEvicts | pcache/pcache.go:158-176 | the requirements alone evict an entry, whatever the ping says, exactly when the hard one is zero; a failed lookup does this if it returns the zero ServiceInfo |
| PeerCacheRuns.ReachableInv | pcache/pcache.go:91-241 | in every state of every run top counts lie in 90..100, middle counts in 10..90, the last level is empty, tags are unique and no entry is held twice |
| PeerCacheRuns.UpdateTracks | pcache/pcache.go:149-241 | an update moves an entry exactly to where its fate says, with that count, and to no other level |
| PeerCacheRuns.TopLevelIsReliable | pcache/pcache.go:179-208 | an entry in the top level throughout k updates missed its soft requirement m times with 11 m <= k + 10 |
| PeerCacheRuns.MiddleCount | pcache/pcache.go:179-231 | over any stay in the middle level the count is the count on entry plus good updates minus ten per miss |
| PeerCacheRuns.JoinsMiddleWithFifty | pcache/pcache.go:96-103 | an entry that appears in the middle level of a run does so with count 50 |
| PeerCacheRuns.MiddleLadder | pcache/pcache.go:179-231 | from 50 an entry stays while its net gain is within 40, is promoted exactly at 41 and dropped exactly below -40, apart from a failed hard requirement or RemovePeer |
| PeerCacheRuns.GetPeerAfterUpdate | pcache/pcache.go:130-145 | after an update and any additions GetPeer gives a lowest-RTT match of the top level, else of the measured middle, else the earliest addition that matches, and fails exactly when nothing matches |
| PeerCacheRuns.NoFailedPeerIsKept | pcache/pcache.go:161-192 | every entry in any level after the update answered its ping and met its hard requirement, and the RTT stored is the one measured |
| PeerCacheRuns.RemoveIsExact | pcache/pcache.go:106-127 | exactly one entry with that ID goes if a leading slot of the top or middle level holds one, otherwise nothing changes |
| PeerCacheRuns.RemovedSlots | pcache/pcache.go:85-127 | the slot that empties is the first in the window with the ID; the old last entry of its level takes it, and every other slot and level stays |
| PeerCacheRuns.SlowestComesNext | pcache/pcache.go:85-145 | after an update, where the top level is of one service, removing GetPeer's answer makes it answer with the entry of the highest RTT there |
| PeerCacheRuns.OutOfReach | pcache/pcache.go:106-145 | a peer behind three entries of other services is returned by GetPeer and not removed by RemovePeer |
| PeerCacheRuns.RemoveTakesReturned | pcache/pcache.go:106-145 | in every cache that keeps the invariant, RemovePeer takes out the very entry GetPeer returned if and only if that entry is the first in the window with its ID |
| PeerCacheRuns.RemoveCanMissGet | proxy/proxy.go:129-133 | a run after which removing the peer GetPeer returns changes nothing |
| PeerCacheRuns.Shadowed | pcache/pcache.go:106-145 | an entry of another service with the same ID is removed in place of the one GetPeer returns, which is returned again |
| PeerCacheRuns.RemoveCanTakeAnother | proxy/proxy.go:129-133 | a run after which removing the peer GetPeer returns takes another entry, and GetPeer returns the same one again |
| PeerCacheRuns.Drains | proxy/proxy.go:129-133 | with one service only, GetPeer then RemovePeer of its result empties the cache in exactly as many rounds as there are entries |
| ChainSpec.ScanSpec | l4-proxy/chain-setup.go:530-543 | the mutable scan finds this service exactly when a hop has it, with the transport of the last hop of its run, and the next hop's service and transport |
| ChainSpec.TakeTurn | l4-proxy/chain-setup.go:545-574 | the three ways on from the scan, which TurnOnTokens and NotFoundIffUnnamed tell on the tokens |
| ChainSpec.NotFoundIffUnnamed | l4-proxy/chain-setup.go:530-547 | for every specification and service, the handler is left out exactly when no token that is not a transport names its service |
| ChainSpec.TurnOnTokens | l4-proxy/chain-setup.go:530-574 | for every specification that names the service: its transport is the one named last before the last mention in its first run, its successor the first other service after, and it is the end if there is none or an empty token |
| ChainSpec.RenderThenRead | l4-proxy/chain-setup.go:523-529 | any list of hops is what its written form denotes |
| ChainSpec.FirstHop | l4-proxy/chain-setup.go:455-456 | the first hop is the service the source resolves, over the transport it opened, and every hop's transport is tcp or udp |
| ChainSpec.CutTurn | l4-proxy/chain-setup.go:533-545 | a service named before the first empty token turns as if the specification ended there |
| ChainSpec.DistinctServicesTurn | l4-proxy/chain-setup.go:530-570 | with distinct services each proxy takes its own hop's transport and hands over to the next hop's service |
| ChainSpec.NextStop | l4-proxy/chain-setup.go:533-543 | a handler's successor is the stop after the first occurrence of its service |
| ChainSpec.ContiguousIffNoRepeat | l4-proxy/chain-setup.go:527-529 | services stand together exactly when no stop comes twice |
| ChainSpec.ContiguousVisits | l4-proxy/chain-setup.go:530-570 | a contiguous chain visits every distinct service once, in order, and stops |
| ChainSpec.LoopedVisits | l4-proxy/chain-setup.go:527-570 | any other chain returns to a service and repeats from there for ever |
| ChainSpec.BackAndForth | l4-proxy/chain-setup.go:527-570 | for any two services, tcp/a/b/a is such a chain: the handlers of a and b take turns for ever |
| ChainSpec.TailIsIgnored | l4-proxy/chain-setup.go:530-545 | specifications that agree up to their first empty token are followed alike, and nothing behind it is visited |
| ChainSpec.ChainEndsIffContiguous | l4-proxy/chain-setup.go:527-570 | following the chain ends if and only if, up to the first empty token, each service's occurrences stand together |
| ChainInvariant.ActGood | l4-proxy/chain-setup.go:511-626 | every step of a handler or of its forwarders keeps its own invariant and disturbs neither neighbour |
| ChainInvariant.Reachable | l4-proxy/chain-setup.go:447-626 | the invariant holds after every sequence of steps, resets and failures |
| ChainSafety.TypedReceives | l4-proxy/chain-setup.go:273-369 | in every run, failures included, no typed receive meets a message of another type; each stream carries SetupRequest then data forwards, SetupACK then data backwards, no payload above MAX_UDP_TUNNEL_PAYLOAD |
| ChainSafety.PrefixAndSuffix | l4-proxy/chain-setup.go:548-613 | the proxies reached by the request are a prefix of the chain, those that acknowledged a suffix |
| ChainSafety.AckedToTheEnd | l4-proxy/chain-setup.go:552-613 | a proxy's ACK implies those of all behind it and names them in reverse |
| ChainSafety.NodesFollowSpec | l4-proxy/chain-setup.go:572-587 | the handlers run are those met by following the specification |
| ChainSafety.SetupSuccess | l4-proxy/chain-setup.go:488-507 | setupChain succeeds only when all proxies acknowledged, and the text is "Reverse chain: " and the names in reverse order with one space between |
| ChainSafety.SetupOnlyContiguous | l4-proxy/chain-setup.go:447-626 | a well-formed chain that was set up is contiguous and has one handler for each stop, in order |
| ChainSafety.ReverseRelay | l4-proxy/chain-setup.go:388-411 | at any time the last service's output is what the client got, then what is in flight stream by stream; whatever is reset, the client got a prefix |
| ChainSafety.ForwardRelay | l4-proxy/tcp-proxy.go:220-223 | each service is fed a prefix of what the party before it emitted, the rest being in flight, under any re-chunking |
| ChainCompletion.SetupCompletes | l4-proxy/chain-setup.go:447-626 | every well-formed contiguous chain has a run that opens it and leaves all proxies relaying with nothing in flight |
| ChainCompletion.SetupPossibleIffContiguous | l4-proxy/chain-setup.go:447-626 | setup can succeed if and only if the chain, up to its first empty token, is contiguous |
| ChainCompletion.ReplyCanReachClient | l4-proxy/chain-setup.go:388-411 | from a quiet open chain any chunk of the last service can reach the client over any number of proxies, leaving the chain quiet |
| ChainCompletion.ChunkCanReachNextService | l4-proxy/tcp-proxy.go:37-109 | from a quiet open chain any chunk of the client or of a middle service can reach the next service |
| ChainProgress.StepScores | l4-proxy/chain-setup.go:511-626 | when nothing is reset, lost or given up, no step stops a handler or the source, and every setup step that does anything brings the setup on |
| ChainProgress.SetupIsBounded | l4-proxy/chain-setup.go:447-626 | in every such run of a contiguous chain, in any order and with relaying in between, setup takes at most five steps per proxy and two at the source |
| ChainProgress.SetupDoesNotStall | l4-proxy/chain-setup.go:447-626 | and as long as the chain is not open some setup step is possible; once it is, every handler relays |
| ChainProgress.SettledDelivered | l4-proxy/tcp-proxy.go:37-109 | an open chain with intact streams in which nothing more can be carried on has given the client all that the last service sent and each service all that the party before it sent |
| ChainFailures.StrangerIsSilent | l4-proxy/chain-setup.go:545-547 | a handler whose service the request does not name stops on reading it and, whatever anybody does, sends nothing on its stream and dials nobody |
| ChainFailures.BadSpecReachesNobody | l4-proxy/chain-setup.go:447-466 | a specification without a leading transport or without a second token fails at the source and reaches no proxy |
| ChainFailures.OpensOnlyIfAllRead | l4-proxy/chain-setup.go:488-507 | setup succeeds only if the request was sent on, and read from, every stream of the chain |
| ChainFailures.FailedSends | l4-proxy/chain-setup.go:548-613 | a request that cannot be passed on stops the handler, as does an ACK that the last one cannot send; a middle one relays although its ACK was lost; without a transport neither relays |
| ChainFailures.ResetIsFinal | l4-proxy/chain-setup.go:371-377 | once reset, a stream stays reset and carries no further message in either direction, whatever follows |
| ChainFailures.GivenUp | l4-proxy/chain-setup.go:495-500 | a source whose setup failed never opens, and neither reads nor writes its client |
| ChainFailures.ForwardersIndependent | l4-proxy/tcp-proxy.go:220-223 | each of a handler's three forwarders does the same whatever the others hold, and leaves that alone |
| ChainFailures.ClientForwardersIndependent | l4-proxy/tcp-proxy.go:126-129 | likewise the source's two |
| ChainFailures.ReadsFit | l4-proxy/tcp-proxy.go:78-99 | a service's chunk can be read at once exactly when it fits the payload limit of the transport |
| ChainFailures.WritesMayBePartial | l4-proxy/tcp-proxy.go:51-65 | any part of what is held may be written, and exactly the rest stays held |
| Teardown.RunKeepsInv | l4-proxy/tcp-proxy.go:23-29 | every forwarder that ended has closed what it owns, nothing else is closed, and each exit uses up one forwarder |
| Teardown.StronglyConnected | l4-proxy/tcp-proxy.go:187-224 | for every length and mix of transports each resource of a chain leads to every other along forwarder edges |
| Teardown.MayEndIff | l4-proxy/tcp-proxy.go:84-109 | a forwarder may end exactly when what it reads or what it writes is closed |
| Teardown.NothingEndsByItself | l4-proxy/tcp-proxy.go:37-66 | the first to end reads or writes something that had closed |
| Teardown.TeardownIsTotal | l4-proxy/udp-proxy.go:302-332 | once anything of a running chain closes, a run of exits that cannot go on has closed everything the chain owns, nothing else, and ended all forwarders; a UDP source's listening socket stays open |
| Teardown.TeardownIsFinite | l4-proxy/chain-setup.go:371-377 | there are at most 3n + 1 exits, and until everything is closed another is bound to come |
| ForwarderLoops.Conn.Write | l4-proxy/tcp-proxy.go:53-64 | Go's contract for Write: all the data, or an error and less; it fails exactly when the connection's budget is used up |
| ForwarderLoops.StreamToConn | l4-proxy/udp-proxy.go:47-80 | the far end writes exactly the non-empty messages, once each, whole and in order, up to the first failed write, and stops early exactly when there are more of them than the connection takes |
| ForwarderLoops.DeliversPrefix | l4-proxy/tcp-proxy.go:37-66 | as bytes this is a prefix of what was sent, however it was cut into messages |
| ForwarderLoops.ConnToStream | l4-proxy/tcp-proxy.go:78-109 | the reused read buffer sends the input unchanged; message k is as long as was asked for, the limit and the input that was left allow, until sending fails |
| ForwarderLoops.AllIsSent | l4-proxy/tcp-proxy.go:84-109 | reads that each ask for something, as many as there are bytes, send the whole input |
| UdpDemux.UdpServiceProxy.HandleDatagram | l4-proxy/udp-proxy.go:168-251 | the retry loop computes exactly Handle of the old state: map, streams, log of acceptances and outcome |
| UdpDemux.UdpServiceProxy.RunNotices | l4-proxy/udp-proxy.go:140-155 | each close callback removes the client of its stream and no other |
| UdpDemux.UdpServiceProxy.ForwardReply | l4-proxy/udp-proxy.go:47-80 | a non-empty message of a live stream is written once, to the client the stream was set up for |
| UdpDemux.RepliesAreWhatCameBack | l4-proxy/udp-proxy.go:47-80 | in every run a reverse forwarder writes exactly the non-empty messages that came back on its stream while open, once each and in order |
| UdpDemux.CloseForgets | l4-proxy/udp-proxy.go:140-155 | a stream that closes is dead, and its callback, if it runs, forgets that stream's client only |
| UdpDemux.DeadStaysDead | l4-proxy/udp-proxy.go:213-216 | once closed or reset, a stream never carries another datagram |
| UdpDemux.StoppedForGood | l4-proxy/udp-proxy.go:125-128 | a proxy that has shut down changes nothing more |
| UdpDemux.HandleKeepsInv | l4-proxy/udp-proxy.go:183-251 | handling a datagram keeps clients isolated and acceptances in order, whatever set-ups, writes and callbacks do |
| UdpDemux.ClientsIsolated | l4-proxy/udp-proxy.go:132-251 | in every run the map is injective, a stream carries only its client's datagrams, and every reply a client gets comes from a stream that has carried nobody else's and answers nobody else |
| UdpDemux.AcceptedInOrder | l4-proxy/udp-proxy.go:210-250 | in every run each client's accepted datagrams are a subsequence of its arrivals, and each stream carries exactly what was accepted on it |
| UdpDemux.OneDatagram | l4-proxy/udp-proxy.go:210-250 | a datagram is written at most twice and accepted at most once, on a stream that answers its sender; given up, its sender is out of the map |
| UdpDemux.SentExactly | l4-proxy/udp-proxy.go:183-251 | on the inputs: a datagram is accepted exactly when the first write succeeds on a live or new stream, or else setting up again and the second write do; given up exactly when only the second write fails; and how often it is written |
| UdpDemux.StreamCount | l4-proxy/udp-proxy.go:183-246 | how many streams are opened, and which one accepted the datagram |
| UdpDemux.StreamsAfter | l4-proxy/udp-proxy.go:210-250 | every stream carries what it did, the accepting one carries the datagram once more, and a stream is reset exactly when a write on it failed |
| UdpDemux.SenderStaysMapped | l4-proxy/udp-proxy.go:183-246 | after an accepted datagram the sender is mapped to the stream that took it, unless that stream's callback has run |
| UdpDemux.OthersStayMapped | l4-proxy/udp-proxy.go:140-155 | no other client's entry changes, but for the callbacks of its own stream |
| UdpDemux.NoticesForget | l4-proxy/udp-proxy.go:140-155 | the callbacks forget exactly the clients whose streams they are called for |
| UdpDemux.SentOrForgotten | l4-proxy/udp-proxy.go:183-251 | a datagram not accepted leaves its sender out of the map, except exactly when there was a stream to write to, the write failed, the second set-up failed, and no close callback for that stream had come before the write |
| UdpDemux.ShutDownKeepsDeadStream | l4-proxy/udp-proxy.go:233-236 | a run and a datagram for which this happens: the stopped proxy still maps the sender to a dead stream |
| UriTable.SplitJoin | l4-proxy/l4-proxy.go:161-173 | splitting a joined specification gives it back |
| UriTable.JoinInjective | l4-proxy/tcp-proxy.go:165 | two specifications with the same key are the same |
| UriTable.PathRoundTrip | l4-proxy/l4-proxy.go:160-173 | tokens that begin and end non-empty, written as a path with or without outer slashes, are read back token for token, empty ones between included |
| UriTable.OneSlashIsTrimmed | l4-proxy/l4-proxy.go:162-163 | only one slash is taken off at either end: an empty last token is kept |
| UriTable.NothingNamed | l4-proxy/l4-proxy.go:164-170 | a path gives no tokens exactly when it is empty, a slash, or begins with two |
| UriTable.RequestOpensIff | l4-proxy/l4-proxy.go:217-246 | a request makes an entry exactly when it names a transport and more, has none yet, and a socket can be had |
| UriTable.ForwarderTable.OpenProxy | l4-proxy/tcp-proxy.go:163-183 | the address in the table for the key, whether or not its socket is still open; entered, with a new open socket, if it was missing and a socket could be had |
| UriTable.LiveChainsDoNotShare | l4-proxy/udp-proxy.go:256-283 | after any requests and shutdowns, two different chains of one transport that both still listen have different addresses |
| UriTable.SharedOnlyAfterClose | l4-proxy/udp-proxy.go:124-128 | two entries of one transport with the same address: the socket of the one made earlier has closed |
| UriTable.FreedAddressIsReused | l4-proxy/udp-proxy.go:189-192 | for any two chains of one transport and any address, a run in which the first still has in the table the address on which the second now listens |
| UriTable.TransportsMayShare | l4-proxy/tcp-proxy.go:166-175 | for any TCP chain and any UDP chain, a run in which both listen on the same address |
| UriTable.AddressIsStable | l4-proxy/tcp-proxy.go:163-183 | an address once handed out for a chain stays its address, and a socket once closed is not opened again |
| RegistryCacheModel.RegistryCache.Add | rcache/registry-cache.go:54-62 | the entry expires one time to live from now, other names untouched |
| RegistryCacheModel.RegistryCache.Get | rcache/registry-cache.go:66-78 | a hit exactly for a stored entry that has not expired |
| RegistryCacheModel.RegistryCache.Delete | rcache/registry-cache.go:81-85 | that name only is forgotten |
| RegistryCacheModel.RegistryCache.GetOrRequestService | rcache/registry-cache.go:89-103 | the cached value, or the registry's answer, which is then cached |
| RegistryCacheModel.AnswerLastsTtl | rcache/registry-cache.go:54-103 | an answer is reused up to one time to live after it was cached and not a moment longer; other names keep their entries |
| RegistryCacheModel.StalenessBound | rcache/registry-cache.go:54-103 | over every interleaving of lookups, insertions and deletions, what the cache returns was answered by the registry for that name and stored no longer ago than the time to live |
| RegistryCacheModel.AloneIsSequential | rcache/registry-cache.go:89-103 | a call that nobody interrupts returns and stores what the call on its own does |
| RegistryCacheModel.ErasedIsMissed | rcache/registry-cache.go:81-85 | a name deleted between calls is a miss at any time, others are as before |
| FindAlloc.Refind | l4-proxy/l4-proxy.go:119-128 | the first answer of the backoff loop, whose own error variable stays inside |
| FindAlloc.FindOrAllocate | l4-proxy/l4-proxy.go:76-158 | the loop that caches afterwards has the peer and the cache that Outcome gives, with at most three allocations |
| FindAlloc.FindForRequest | proxy/proxy.go:57-127 | the loop that caches inside has the same peer, the same cache and the same number of allocations |
| FindAlloc.HitIsReturned | l4-proxy/l4-proxy.go:84-86 | a cached peer is returned and nothing changes |
| FindAlloc.PeerIsNamedFirst | l4-proxy/l4-proxy.go:94-155 | on a miss the peer is the one FindService names in the least attempt that names one, at once or as the first answer after a successful allocation; none is returned, and nothing cached, exactly when no attempt names one |
| FindAlloc.PeerIsAccountedFor | l4-proxy/l4-proxy.go:130-146 | that peer is added once, unmeasured, at the end of the middle level, unless it is slow and no better one could be started; it is then what the next lookup finds |
| FindAlloc.AllocsCounted | l4-proxy/l4-proxy.go:94-112 | AllocService is called once in every attempt whose first FindService fails |
| FindAlloc.AllocBetterService | lca/lca-manager.go:101-124 | stopping early on the sorted list finds a working allocator exactly when one is fast enough, and the fastest |

## Left out

- libp2p, Docker, HTTP serving, Prometheus, key and configuration loading and both `main` functions are wiring around libraries.
- gob and msgio encoding and framing: a stream is a FIFO of typed messages, so a second communicator on it loses nothing.
- `connQualMonitor` and ping timing: only the effects appear, as resets and as RemovePeer.
- The lock discipline of `udpServiceProxy` and data races on `serv2Fwd`: table accesses are sequential.
- Dial failures after the ACK end a handler without a reset; the teardown model starts from a chain whose forwarders all run.
- The LCA allocator's line protocol, and `SortPeers`: its result is taken to be sorted.
- A read error on the UDP listening socket, which only ends the proxy.
- ForwarderLoops.StreamToConn: assumes Go's contract that a short write reports an error; otherwise the code would write the whole message again.
- Teardown.TeardownIsTotal: does not model a UDP source's retry with a new chain, which starts afresh with new streams.
- UdpDemux.ClientsIsolated: callbacks run only at the points where the loop does not hold the map's lock.
- ChainCompletion.ReplyCanReachClient: says that delivery is possible; ChainProgress.SettledDelivered adds that nothing else is left to do, but the number of delivery steps is not bounded here.
- ChainSpec.WellFormed: the second token is a service name; one that is empty or a transport name makes the source resolve a service that no chain can name.
- FindAlloc.PeerIsAccountedFor: nobody else touches the cache between the miss and AddPeer; in the program the update goroutine and other requests may.
- UriTable.ForwarderTable.OpenProxy: two requests for one chain are handled one after the other.
- FindAlloc.FindOrAllocate: `NewExpoBackoffAttempts` is taken to succeed and to allow some finite number of attempts.
